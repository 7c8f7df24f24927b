# A model of the order-book engine and the parts around it

The repository simulates trading against a replayed limit order book. Its engine keeps every
historical order in FIFO queues and lays strategy ("paper") orders over them; sinks, a multi-book
merge, a hash table, a blocking queue, a text protocol and a feed adapter stand around it. This
project models those parts and proves what they promise.

The engine comes twice. `Book` is a state machine on values: what each event does to queues, index,
nodes and strategy orders, and what it reports. `Simulator` is the engine as the source has it:
mutable maps, lazy price heaps, node pools, Fenwick trees and nested loops; `Update` is proved to do
exactly one step of the state machine, with the whole representation kept. The theorems about runs
are then about the state machine. What a step itself comes to is said a second time, without its
recursions: `Matching`, `PassiveEffects` and `AddEffects` tell the state after each kind of event and
its report, record by record, from the state before.

| module | what it holds |
|---|---|
| `Types` | vocabulary |
| `Fenwick`, `NodePool`, `PriceHeap` | the engine's data structures |
| `Level`, `PaperIndex` | one price level: the queues, and the index that finds queue positions |
| `Book`, `BookInv` | the state machine and its invariant over every run |
| `Matching` | dry run = real run, the price-then-arrival ladder, conservation |
| `Effects`, `PassiveEffects`, `AddEffects` | what every kind of event does and reports, in terms of ladders and FIFO walks of the state before it |
| `NonInterference` | runs with and without strategy events, and when they show the same book |
| `Named`, `Nameless` | when a resting order stays findable under its id, exactly |
| `Phantom` | when a sweep leaves phantom lots behind, exactly, and what follows without them |
| `Ledger`, `LedgerStates` | the sink's ledger, and what opens, fills and ends an entry |
| `Agreement`, `AgreementLimits` | that the ledger agrees with the engine, and exactly when it does not |
| `EngineRep`, `EngineSteps`, `EngineMatch`, `Simulator` | the engine as a class, refining the state machine |
| `Replay` | the replay session in front of an engine |
| `Snapshot`, `SnapshotRows` | the snapshot initialisers and depth queries |
| `Counterexamples` | two short runs that reach the limits which `Phantom` and `Nameless` draw |
| `Slots`, `FlatHashMaps` | the Robin Hood hash table, refining a finite map |
| `Merge`, `BookTables`, `MultiBook` | the k-way merge of streams and strategy events, and the engines of the books |
| `BlockingQueue` | the queue under every interleaving of its threads |
| `Wire`, `Datagrams` | print, batch, split, parse |
| `MultiSink` | the sink shared by many books |
| `L2Adapter` | the level feed turned into orders |

Where the code differs from what its structure suggests, the model follows the code:

- A direct sweep (`trade_against_paper_level`) lowers an order's remainder before it removes the
  order, so a full fill leaves its lots in the level's index. The model counts them as `phantom`
  lots; `PhantomLotsHappen` reaches a level with one from an empty engine. `StepPhantoms` says which
  events make them, from the state before the event: those whose direct sweep ends inside a level
  whose front order it has filled. `RunPhantoms` says the same of runs, `LotsQueuedExactly` and
  `ReachableFifo` what holds as long as there are none.
- Orders of an aggregated snapshot carry the id -1 and are not indexed, and an ADD may use that id
  too. The invariant holds for all of them. Every order with another id is found under it
  (`OtherIdsFound`), and so is every order of an engine that starts empty or from single orders
  (`RunIndexed`). `LostExactly` says when an order indexed under -1 can lose its entry while it
  rests; `NamelessOrderIsLost` is such a run.
- On an exhausted node pool the single-order initialiser leaves an empty level behind
  (`ExhaustedLeavesLevel`). `SnapshotInvExactly` says for every snapshot, from its rows, whether it
  starts the engine inside the invariant.
- The ledger sees events and fills, not refusals, so an id that is used twice or an order without
  room can set it apart from the engine. `StepAgreesExactly` and `RunAgreesExactly` say when.
- Level ids of the feed adapter are hashes, which can collide. `RunMirrorsExactly` asks only that a
  level that appears shares no id with one that is there.
- Shadow fills come on top of the historical fills and do not enter the aggressor's sum.
- A valid AGGRESSIVE_TRADE counts twice; a strategy MATCH does change the historical book.

## Model

| member | source | states |
|---|---|---|
| `Fenwick.LowBitGap` | cpp/include/lobsim/paper_trading_simulator.hpp:185-197 | nodes strictly between a node and its successor in the update walk cover ranges that start at or after it |
| `Fenwick.LowBitNext` | cpp/include/lobsim/paper_trading_simulator.hpp:185-189 | the successor of a node in the update walk covers at least twice its range |
| `Fenwick.SumOfAdded` | cpp/include/lobsim/paper_trading_simulator.hpp:185-197 | `add` changes exactly the prefix sums that include the index, by exactly the delta, on any node vector |
| `Fenwick.SumOfGrown` | cpp/include/lobsim/paper_trading_simulator.hpp:167-183 | `ensure_size` leaves every earlier prefix sum unchanged and appends zero quantities |
| `Fenwick.FenwickTree.EnsureSize` | cpp/include/lobsim/paper_trading_simulator.hpp:167-183 | the sequence behind the tree grows by zeros to the requested size, never shrinks |
| `Fenwick.FenwickTree.Add` | cpp/include/lobsim/paper_trading_simulator.hpp:185-189 | the sequence behind the tree changes at the index only; an index out of range changes nothing it stands for |
| `Fenwick.FenwickTree.Sum` | cpp/include/lobsim/paper_trading_simulator.hpp:191-197 | the query is the exact prefix sum of the sequence behind the tree |
| `Fenwick.Query` | cpp/include/lobsim/paper_trading_simulator.hpp:191-197 | the query loop returns the recursive node sum, also on a half-grown tree |
| `Fenwick.Grow` | cpp/include/lobsim/paper_trading_simulator.hpp:172-182 | the growth loop computes the specified tree, node by node from two queries |
| `NodePool.Pool.Acquire` | cpp/include/lobsim/paper_trading_simulator.hpp:41-59 | hands out a slot nobody holds; fails only at capacity, and exactly then while the pool never exceeded it; no owner moves |
| `NodePool.Pool.Release` | cpp/include/lobsim/paper_trading_simulator.hpp:61-73 | the slot goes back once; releasing an unknown key changes nothing; slots stay split into in use and free |
| `NodePool.Pool.Reset` | cpp/include/lobsim/paper_trading_simulator.hpp:75-84 | all slots are free again, none lost |
| `PriceHeap.CleanTop` | cpp/src/paper_trading_simulator.cpp:417-429 | despite stale and duplicate entries the result is the true best live price, and what stays on the heap still covers every live price |
| `PriceHeap.PopAll` | cpp/src/paper_trading_simulator.cpp:177-181 | all duplicates of a price leave the heap copy, every other live price stays |
| `PriceHeap.BestUnique` | cpp/src/paper_trading_simulator.cpp:417-429 | the best price of a set is unique |
| `PriceHeap.PushCovers` | cpp/src/paper_trading_simulator.cpp:305-310 | pushing a new price keeps the heap covering every live price |
| `Level.ShadowIsFifo` | cpp/src/paper_trading_simulator.cpp:490-583 | without phantom lots the queue-position arithmetic gives the paper fills and leftovers of a trade walking the merged FIFO queue by stamp, for every trade size |
| `Level.MergeIsByStamp` | cpp/src/paper_trading_simulator.cpp:490-583 | the merged queue is strictly sorted by stamp and holds exactly both queues, each in its order |
| `Level.ShadowIsWalk` | cpp/src/paper_trading_simulator.cpp:490-583 | the same from every point of the walk on, with part of the historical queue already passed |
| `Level.ShadowIsWalkOfAll` | cpp/src/paper_trading_simulator.cpp:490-583 | with phantom lots too: fills and leftovers are those of a walk through the merged queue in which the phantom lots stand ahead of the first strategy order |
| `Level.FifoExactlyWithoutPhantom` | cpp/src/paper_trading_simulator.cpp:625-689 | a level gives the FIFO fills for all trade sizes if and only if it carries no phantom lots |
| `Level.ShadowBounded` | cpp/src/paper_trading_simulator.cpp:490-583 | shadow fills are positive and never exceed the lots traded at the level |
| `Level.ShadowRest` | cpp/src/paper_trading_simulator.cpp:490-583 | a shadow walk only takes strategy orders from the front and shortens at most one |
| `Level.ConsumeTotals` | cpp/src/paper_trading_simulator.cpp:182-242 | the fills of one level are the lots taken, and the depth falls by exactly that |
| `Level.ConsumeRest` | cpp/src/paper_trading_simulator.cpp:182-242 | matching leaves a suffix of the queue with at most its front shortened, and stops only when done or empty |
| `Level.SweepTotals` | cpp/src/paper_trading_simulator.cpp:585-653 | a direct sweep takes from the remainders exactly the lots it reports; the orders it fills become phantom lots |
| `Level.SweepRest` | cpp/src/paper_trading_simulator.cpp:585-653 | a direct sweep leaves a suffix of the strategy orders, stops only when done or empty, and never lowers the count of phantom lots |
| `PaperIndex.MarketQtyAt` | cpp/include/lobsim/paper_trading_simulator.hpp:200-208 | position k of the market index carries the live quantity of its order, or 0 once that is gone |
| `PaperIndex.LowerBound` | cpp/src/paper_trading_simulator.cpp:503-512 | the binary search returns the first position whose stamp is not below the given one |
| `PaperIndex.MarketAhead` | cpp/src/paper_trading_simulator.cpp:503-512 | binary search plus prefix sum is the historical quantity that arrived before a stamp |
| `PaperIndex.FrontAhead` | cpp/src/paper_trading_simulator.cpp:526-530 | the paper-tree query for the front order returns exactly the phantom lots |
| `PaperIndex.AdjustedRep` | cpp/src/paper_trading_simulator.cpp:226-237 | after a quantity change the market index agrees with the changed queue |
| `PaperIndex.JoinedRep` | cpp/src/paper_trading_simulator.cpp:312-319 | after a historical order joins, the market index agrees with the longer queue |
| `PaperIndex.ResizedRep` | cpp/src/paper_trading_simulator.cpp:567-572 | a partial fill or resize keeps tree, lot count and records in step |
| `PaperIndex.RemovedRep` | cpp/src/paper_trading_simulator.cpp:684-697 | a removal with its remainder keeps tree, lot count and records in step |
| `PaperIndex.PhantomRep` | cpp/src/paper_trading_simulator.cpp:633-639 | a full fill by a direct sweep leaves its lots in tree and lot count: they become phantom |
| `PaperIndex.RestedRep` | cpp/src/paper_trading_simulator.cpp:270-291 | a strategy order that comes to rest is indexed behind all others |
| `PaperIndex.IndexQueue` | cpp/src/paper_trading_simulator.cpp:455-479 | a fresh level indexes the whole historical queue at its price, in order |
| `EngineRep.LevelIndexAgrees` | cpp/include/lobsim/paper_trading_simulator.hpp:200-208 | a stored level read as data: rising stamps; live quantities by market position; each strategy order at its paper position behind the phantom lots and the remainders ahead, nothing at the other positions; lots queued = remainders + phantom |
| `EngineRep.ReplaceLevel` | cpp/src/paper_trading_simulator.cpp:490-653 | changing one level keeps every other level standing for its orders |
| `EngineRep.OpenEnd` | cpp/src/paper_trading_simulator.cpp:490-653 | putting a changed level back restores the representation of the whole paper overlay |
| `EngineRep.OpenRemove` | cpp/src/paper_trading_simulator.cpp:684-697 | taking an order off an open level keeps it standing for the shorter queue |
| `EngineRep.OpenPhantom` | cpp/src/paper_trading_simulator.cpp:633-639 | the same for a direct sweep, with the lots left behind |
| `EngineRep.OpenResize` | cpp/src/paper_trading_simulator.cpp:567-572 | the same for a new remainder |
| `BookInv.StepInv` | cpp/src/paper_trading_simulator.cpp:48-83 | every update, whatever its id, keeps the whole-state invariant: index, node table, queues sorted by arrival, disjoint ids, best bid below best ask |
| `BookInv.RunInv` | cpp/src/paper_trading_simulator.cpp:48-83 | the invariant holds in every state an event sequence reaches |
| `BookInv.EmptyInv` | cpp/include/lobsim/paper_trading_simulator.hpp:239-259 | the empty engine satisfies the invariant |
| `BookInv.RequeueInv` | cpp/src/paper_trading_simulator.cpp:203-226 | taking lots or orders out of one queue, with their nodes and index entries, keeps the invariant |
| `BookInv.RepaperInv` | cpp/src/paper_trading_simulator.cpp:655-697 | the same for the strategy orders of one level |
| `BookInv.MatchHistoricalInv` | cpp/src/paper_trading_simulator.cpp:121-245 | what a historical aggressor leaves satisfies the invariant, and no opposite price crosses it if lots are left |
| `BookInv.SweepPapersInv` | cpp/src/paper_trading_simulator.cpp:247-266 | a sweep touches only strategy orders; if lots are left, no opposite strategy order crosses the limit |
| `BookInv.AddInv` | cpp/src/paper_trading_simulator.cpp:85-322 | an ADD of either source keeps the invariant, the uncrossed book included |
| `BookInv.MatchInv` | cpp/src/paper_trading_simulator.cpp:1000-1106 | a MATCH, strategy ones included, keeps the invariant |
| `BookInv.AggressiveInv` | cpp/src/paper_trading_simulator.cpp:324-415 | an AGGRESSIVE_TRADE keeps the invariant |
| `Matching.RealIsDryRun` | cpp/src/paper_trading_simulator.cpp:150-242 | the mutating branch and the dry run emit the same historical-maker fills and leave the same remainder |
| `Matching.NoLimitIsWideLimit` | cpp/src/paper_trading_simulator.cpp:335-395 | the dry run of an aggressive trade is that of an ADD whose limit every price reaches |
| `Matching.MatchConserves` | cpp/src/paper_trading_simulator.cpp:150-242 | opposite depth at every price falls by exactly the historical fills there; shadow fills per price never exceed them |
| `Matching.SweepConserves` | cpp/src/paper_trading_simulator.cpp:247-266 | a direct sweep reports exactly the lots by which the aggressor shrinks |
| `Matching.AddConserves` | cpp/src/paper_trading_simulator.cpp:85-322 | the size of an ADD = its historical fills + its direct fills of strategy orders + what its sweep leaves over, and nothing opposite crosses that; `AddEffects.AddSettles` says where those lots are after the event |
| `Matching.DryRunIsTaken` | cpp/src/paper_trading_simulator.cpp:150-181 | historical fills are the front of the price-then-arrival ladder, cut at the limit and the size |
| `Matching.LadderComplete` | cpp/src/paper_trading_simulator.cpp:150-181 | the ladder holds exactly the live orders whose price the limit reaches |
| `Matching.LadderSorted` | cpp/src/paper_trading_simulator.cpp:150-181 | the ladder is strictly sorted by price, then arrival |
| `Matching.TradeLevelReport` | cpp/src/paper_trading_simulator.cpp:182-242 | one level: real fills from the queue front, shadow fills bounded by the lots traded |
| `AddEffects.AddReport` | cpp/src/paper_trading_simulator.cpp:121-266 | the whole report of a historical ADD, record by record: level by level of the ladder the historical fills, then the shadow fills of a FIFO walk with the ADD as taker, then the front of the ladder of strategy orders still waiting |
| `AddEffects.AddTakes` | cpp/src/paper_trading_simulator.cpp:182-266 | the other side after it: every queue has lost from its front exactly what was traded there, every level of strategy orders what the walk and then the sweep took; own-side strategy orders stay |
| `AddEffects.AddRests` | cpp/src/paper_trading_simulator.cpp:292-320 | the own side after it: exactly what neither ladder took joins the end of the queue at its price, is found under its id and live with these lots, if a node is free; every other queue stays |
| `AddEffects.AddDepth` | cpp/src/paper_trading_simulator.cpp:121-320 | in the numbers before the event: live quantity and growth of the depth at its price are the lots the ladder leaves over minus the strategy lots waiting within the limit, or 0; other own-side depths stay |
| `AddEffects.AddSettles` | cpp/src/paper_trading_simulator.cpp:121-320 | all lots of an ADD are in its historical fills, its direct fills and the order live under its id, or dropped when no node is free |
| `AddEffects.AddRefusedCounts` | cpp/src/paper_trading_simulator.cpp:85-99 | a negative ADD or one under an id in use is logged and counted and does nothing else |
| `AddEffects.OwnAdd` | cpp/src/paper_trading_simulator.cpp:150-291 | a strategy ADD reports the front of the ladder, leaves the book as it is, and what the ladder leaves of it joins the end of the strategy orders at its price if there is room |
| `AddEffects.AggressiveTold` | cpp/src/paper_trading_simulator.cpp:324-415 | a valid AGGRESSIVE_TRADE reports the front of the whole ladder, then of the ladder of strategy orders; the book stays, each level of strategy orders loses from its front what was taken there |
| `AddEffects.SweepIsTaken` | cpp/src/paper_trading_simulator.cpp:247-266 | a direct sweep reports the front of the price-then-arrival ladder of strategy orders, cut at limit and size |
| `AddEffects.SweepLeaves` | cpp/src/paper_trading_simulator.cpp:585-653 | what a sweep leaves at each price: a suffix shorter by the lots traded there, with the orders it filled added to the phantom lots if the level outlives it |
| `AddEffects.MatchNodes` | cpp/src/paper_trading_simulator.cpp:203-224 | matching frees one node for each historical order it fills, those at the front of the ladder |
| `AddEffects.StepCounts` | cpp/src/paper_trading_simulator.cpp:48-83 | every event counts once, a valid AGGRESSIVE_TRADE twice, and every record of its report carries the count before it |
| `AddEffects.RunCounts` | cpp/src/paper_trading_simulator.cpp:48-83 | over a run the counter grows by the number of events and the number of valid AGGRESSIVE_TRADEs |
| `Effects.CancelEffect` | cpp/src/paper_trading_simulator.cpp:816-998 | a historical DELETE, SUBTRACT or SET gives its order the live quantity it says, drops it from the index exactly when nothing is left, and touches no other order; unknown ids change nothing |
| `Effects.MatchEffect` | cpp/src/paper_trading_simulator.cpp:1000-1106 | a MATCH takes the smaller of its lots and the order's, reports it last, and touches no other historical order |
| `Effects.ChangeReachesOne` | cpp/src/paper_trading_simulator.cpp:1068-1100 | a quantity change moves one live quantity and the depth of one price, by the delta |
| `PassiveEffects.MatchFills` | cpp/src/paper_trading_simulator.cpp:1000-1106 | the whole effect of a MATCH: the report is the event, one fill with unknown taker for each strategy order a FIFO walk of the level reaches with these lots, and the passive fill; the walk's leftovers wait on, the order keeps its place with the rest, all other places stay |
| `PassiveEffects.ShadowFills` | cpp/src/paper_trading_simulator.cpp:541-565 | the shadow fills of a trade at one place are those of the walk, taker the id of an ADD or else unknown |
| `PassiveEffects.PlainWalk` | cpp/src/paper_trading_simulator.cpp:490-583 | without phantom lots that walk is the plain one through both queues by stamp |
| `PassiveEffects.CancelPlace` | cpp/src/paper_trading_simulator.cpp:816-998 | a historical DELETE, SUBTRACT or SET in place: the order keeps its position with the new quantity or leaves, every other queue and all strategy orders stay, the report is the event |
| `PassiveEffects.OwnCancelPlace` | cpp/src/paper_trading_simulator.cpp:699-855 | the same for strategy orders, with their phantom lots and the whole book unchanged |
| `PassiveEffects.UnknownCounts` | cpp/src/paper_trading_simulator.cpp:816-1106 | an event for an unknown id, or a MATCH without lots, is logged and counted and does nothing else |
| `NonInterference.InsertedRunsAlike` | cpp/src/paper_trading_simulator.cpp:48-83 | inserting strategy events other than MATCH leaves levels, FIFO order, ids and quantities equal to the historical-only run, if no historical ADD reuses a resting strategy id and each is harmless |
| `NonInterference.InsertedRunsExactly` | cpp/src/paper_trading_simulator.cpp:48-83 | for such runs: equal after every event if and only if every historical ADD is harmless when it comes |
| `NonInterference.AddAlike` | cpp/src/paper_trading_simulator.cpp:85-322 | a historical ADD does the same to both books if and only if it is refused, has nothing left after matching, reaches no strategy order, or meets a full pool |
| `NonInterference.SweepTakesNothing` | cpp/src/paper_trading_simulator.cpp:247-266 | a sweep takes nothing exactly when no lots are left or no opposite strategy price crosses the limit |
| `NonInterference.StrategyKeepsBook` | cpp/src/paper_trading_simulator.cpp:324-415 | a strategy event other than MATCH leaves book, nodes and index as they are |
| `NonInterference.HistoricalAlike` | cpp/src/paper_trading_simulator.cpp:85-322 | a historical event does the same to a book with strategy orders and to one without; an ADD if and only if it is harmless |
| `NonInterference.MatchAlike` | cpp/src/paper_trading_simulator.cpp:121-245 | matching does the same to two books that differ only in stamps |
| `Ledger.InMemoryLogSink.OnFill` | cpp/src/in_memory_sink.cpp:7-11 | a fill reaches maker and taker entry as `LedgerStates.FillTold` tells it; logs grow by it only |
| `Ledger.InMemoryLogSink.OnEventApply` | cpp/src/in_memory_sink.cpp:13-16 | the ledger follows the event as `LedgerStates.AppliedTold` tells it; the refused list grows by an ADD of no lots or under a known id, and by a negative SUBTRACT |
| `Ledger.InMemoryLogSink.DrainFills` | cpp/src/in_memory_sink.cpp:30-34 | hands over the fills, touches no ledger |
| `Ledger.InMemoryLogSink.ResetAll` | cpp/src/in_memory_sink.cpp:22-28 | forgets everything |
| `Ledger.UpdateOk` | cpp/src/in_memory_sink.cpp:103-194 | any strategy event keeps filled + remaining <= initial, filled = sum of fills, lots left only while live |
| `Ledger.Filled1Ok` | cpp/src/in_memory_sink.cpp:70-96 | a fill within the remainder keeps the same |
| `Ledger.FinalForever` | cpp/src/in_memory_sink.cpp:70-194 | FILLED and CANCELLED are absorbing whatever is recorded later |
| `LedgerStates.FillTold` | cpp/src/in_memory_sink.cpp:70-101 | every field of an entry after a fill: a cancelled one ignores it, any other logs it with the role it has in it, takes its lots off the remainder and is FILLED exactly when that leaves none |
| `LedgerStates.AppliedTold` | cpp/src/in_memory_sink.cpp:103-194 | the whole ledger after an event: what an ADD opens, what SUBTRACT, SET and DELETE leave of a live entry field by field, CANCELLED when no lots are left, and when nothing changes |
| `LedgerStates.ReplayLives` | cpp/src/in_memory_sink.cpp:7-194 | after every replay, of any records: OPEN exactly while lots are left and none are filled, PARTIALLY_FILLED exactly while some are, filled = sum of fills, nothing REJECTED |
| `LedgerStates.EndsExactly` | cpp/src/in_memory_sink.cpp:70-194 | a live entry becomes FILLED if and only if the record is a fill with at least its remaining lots, CANCELLED if and only if it is an event that takes them all |
| `LedgerStates.EndedBy` | cpp/src/in_memory_sink.cpp:70-194 | over every replay each ended entry was ended by one record, FILLED by a fill and CANCELLED by an event, and has had that status since |
| `Agreement.StepAgrees` | cpp/src/in_memory_sink.cpp:7-16 | after every update with fresh ids, and room in the pool for what comes to rest, live ledger entries are exactly the resting strategy orders, with equal remainders |
| `Agreement.AddAgreesExactly` | cpp/src/paper_trading_simulator.cpp:268-291 | a strategy ADD under a new id keeps the agreement if and only if the pool has room for what it leaves |
| `AgreementLimits.StepAgreesExactly` | cpp/src/in_memory_sink.cpp:7-194 | one update, whatever its id: engine and ledger agree after it if and only if it keeps the agreement, a condition read off state, ledger and event |
| `AgreementLimits.RunAgreesExactly` | cpp/src/in_memory_sink.cpp:7-194 | a run keeps them in agreement throughout if and only if each of its events does |
| `AgreementLimits.FreshKeeps` | cpp/src/in_memory_sink.cpp:7-194 | new ids with room for what rests are enough |
| `AgreementLimits.AddKnown` | cpp/src/in_memory_sink.cpp:103-130 | a strategy ADD under an id the ledger has: both refuse it, or nothing comes to rest and the finished entry absorbs its fills |
| `AgreementLimits.AddNew` | cpp/src/in_memory_sink.cpp:103-130 | a strategy ADD under a new id: not the id -1, not that of a historical order, and room for what rests |
| `AgreementLimits.TradeKnown` | cpp/src/paper_trading_simulator.cpp:324-415 | an aggressive trade under an id the ledger has: it takes nothing, or its finished entry absorbs the fills, or it takes its own resting order whole and the entry absorbs both sides |
| `AgreementLimits.ReplayAny` | cpp/src/in_memory_sink.cpp:70-101 | replayed fills of any size add up on an entry: filled by their lots, remaining down to zero, cancelled entries untouched |
| `AgreementLimits.SweepLeft` | cpp/src/paper_trading_simulator.cpp:397-411 | a sweep is left with the lots that exceed what rests within its limit |
| `AgreementLimits.SweepAway` | cpp/src/paper_trading_simulator.cpp:397-411 | a resting order is gone after a sweep if and only if the lots reach through it, behind better prices and earlier orders |
| `Agreement.StepFills` | cpp/src/in_memory_sink.cpp:70-96 | one update raises the filled quantity of an entry, old or just opened, by exactly the lots its report names it for |
| `Agreement.RunFills` | cpp/src/in_memory_sink.cpp:70-96 | over every run filled grows by exactly the lots that the engine's log reports for the id; an entry opened in the run has filled exactly what was logged since its ADD |
| `Agreement.RunAgrees` | cpp/src/in_memory_sink.cpp:7-16 | the same after every run |
| `Agreement.AgreeMeans` | cpp/src/in_memory_sink.cpp:70-194 | what agreement says: live entry if and only if resting, equal remainder, filled + remaining <= initial, filled = sum of the entry's own fills |
| `Agreement.EmptyAgrees` | cpp/src/in_memory_sink.cpp:22-28 | empty ledger and empty engine agree |
| `Agreement.MatchTo` | cpp/src/paper_trading_simulator.cpp:121-245 | a strategy order loses in matching exactly the lots reported to it |
| `Agreement.SweepPapersTo` | cpp/src/paper_trading_simulator.cpp:247-266 | the same for direct sweeps |
| `Simulator.PaperTradingSimulator.constructor` | cpp/src/paper_trading_simulator.cpp:22-28 | a new engine is valid and stands for the empty state |
| `Simulator.PaperTradingSimulator.Update` | cpp/src/paper_trading_simulator.cpp:48-83 | one update changes state and log exactly as one step of the state machine, and keeps the engine valid |
| `Simulator.PaperTradingSimulator.UpdateAll` | cpp/src/paper_trading_simulator.cpp:48-83 | a list of updates is a run of the state machine |
| `Replay.ReplaySession.Step` | cpp/include/lobsim/replay_session.hpp:35-47 | an event out of time is refused and changes nothing; any other one is one more step of the engine |
| `Replay.ReplaySession.Run` | cpp/include/lobsim/replay_session.hpp:49-72 | the engine runs exactly the events before the first one out of time; a run without exception counts them and gives their range of times |
| `Replay.ReplaySession.RunAdapted` | cpp/include/lobsim/replay_session.hpp:74-113 | the same over raw records: unusable ones are counted and skipped, or fatal; all counters of the summary |
| `Replay.WholeCourse` | cpp/include/lobsim/replay_session.hpp:35-70 | a list is fed whole if and only if its times are not negative and, where asked, never fall |
| `Replay.CourseFacts` | cpp/include/lobsim/replay_session.hpp:74-113 | what is fed is in time, and in a run that does not break off every record is fed or counted as a failure |
| `Replay.CourseReads` | cpp/include/lobsim/replay_session.hpp:74-113 | a run feeds exactly the readings of the longest prefix of records that is in time and, where failures are fatal, free of them; it breaks off if and only if that is not all |
| `Replay.RangeMeans` | cpp/include/lobsim/replay_session.hpp:52-66 | both ends of the range occur and no time fed lies outside |
| `Replay.OrderedRange` | cpp/include/lobsim/replay_session.hpp:52-66 | with the time check on, the range is from the first event to the last |
| `Simulator.PaperTradingSimulator.OnAdd` | cpp/src/paper_trading_simulator.cpp:85-99 | rejects negative quantities and known ids, else does what the specification of an ADD says |
| `Simulator.PaperTradingSimulator.AddHistoricalOrder` | cpp/src/paper_trading_simulator.cpp:121-320 | match, sweep, rest: state, fills and remainder are those of the specification, whose remainder is told by `AddEffects.AddDepth` |
| `Simulator.PaperTradingSimulator.AddPaperOrder` | cpp/src/paper_trading_simulator.cpp:150-181 | dry run on a heap copy, then rest: state and fills as specified |
| `Simulator.PaperTradingSimulator.MatchBook` | cpp/src/paper_trading_simulator.cpp:128-245 | the nested matching loops compute the recursive specification and terminate |
| `Simulator.PaperTradingSimulator.TradeAtLevel` | cpp/src/paper_trading_simulator.cpp:182-242 | one level of matching: queue, index, nodes, shadow fills and market index as specified |
| `Simulator.PaperTradingSimulator.ConsumeQueue` | cpp/src/paper_trading_simulator.cpp:185-224 | the node loop takes from the front, drops filled orders from index and pool |
| `Simulator.PaperTradingSimulator.ApplyMarketDeltas` | cpp/src/paper_trading_simulator.cpp:226-237 | the market index of the level catches up with all trades, one by one |
| `Simulator.PaperTradingSimulator.DryRunBook` | cpp/src/paper_trading_simulator.cpp:150-181 | the dry run reports the specified fills and changes nothing else |
| `Simulator.PaperTradingSimulator.SweepPaperLevels` | cpp/src/paper_trading_simulator.cpp:247-266 | the sweep loop computes the recursive specification and terminates |
| `Simulator.PaperTradingSimulator.RestHistoricalOrder` | cpp/src/paper_trading_simulator.cpp:292-320 | node, queue, heap, index and market index follow, if the pool has room |
| `Simulator.PaperTradingSimulator.RestPaperOrder` | cpp/src/paper_trading_simulator.cpp:268-291 | record, level and index follow, if the pool has room |
| `Simulator.PaperTradingSimulator.EnsurePaperLevel` | cpp/src/paper_trading_simulator.cpp:455-479 | the stored level, or a fresh one that indexes the historical queue |
| `Simulator.PaperTradingSimulator.OnAggressiveTrade` | cpp/src/paper_trading_simulator.cpp:324-415 | dry run without limit, sweep, second count of the event |
| `Simulator.PaperTradingSimulator.ApplyPaperTradeAtLevel` | cpp/src/paper_trading_simulator.cpp:490-583 | the loop with binary search and prefix sums makes the specified shadow fills |
| `Simulator.PaperTradingSimulator.ShadowFront` | cpp/src/paper_trading_simulator.cpp:515-582 | one step of that loop: the front order waits, or is filled by what reaches it |
| `Simulator.PaperTradingSimulator.TradeAgainstPaperLevel` | cpp/src/paper_trading_simulator.cpp:585-653 | a direct sweep of one level, phantom lots included, as specified |
| `Simulator.PaperTradingSimulator.RemovePaperOrder` | cpp/src/paper_trading_simulator.cpp:655-697 | removal with the requested amount clamped to the remainder, as the code has it |
| `Simulator.PaperTradingSimulator.BestPaperOppositePrice` | cpp/src/paper_trading_simulator.cpp:431-453 | the scan over all levels returns the best price at which strategy orders rest |
| `Simulator.PaperTradingSimulator.CancelPaperOrder` | cpp/src/paper_trading_simulator.cpp:816-852 | the order leaves level, lots, records, index and pool |
| `Simulator.PaperTradingSimulator.ResizePaperOrder` | cpp/src/paper_trading_simulator.cpp:799-813 | the remainder changes in place, up or down, queue position kept |
| `Simulator.PaperTradingSimulator.ReducePaperOrder` | cpp/src/paper_trading_simulator.cpp:699-755 | SUBTRACT of a strategy order as specified |
| `Simulator.PaperTradingSimulator.SetPaperOrder` | cpp/src/paper_trading_simulator.cpp:757-814 | SET of a strategy order as specified, negative counted as zero |
| `Simulator.PaperTradingSimulator.OnDelete` | cpp/src/paper_trading_simulator.cpp:816-913 | DELETE of either source as specified, by id alone |
| `Simulator.PaperTradingSimulator.OnSubtract` | cpp/src/paper_trading_simulator.cpp:915-921 | SUBTRACT of either source as specified |
| `Simulator.PaperTradingSimulator.OnMatch` | cpp/src/paper_trading_simulator.cpp:923-925 | MATCH as specified, which `PassiveEffects.MatchFills` tells in the terms of a FIFO walk |
| `Simulator.PaperTradingSimulator.OnPartialOrderCancel` | cpp/src/paper_trading_simulator.cpp:1000-1106 | reductions by cancel and by trade as specified, told by `PassiveEffects.CancelPlace` and `PassiveEffects.MatchFills` |
| `Simulator.PaperTradingSimulator.OnSet` | cpp/src/paper_trading_simulator.cpp:927-998 | SET of either source as specified |
| `Simulator.PaperTradingSimulator.ChangeHistorical` | cpp/src/paper_trading_simulator.cpp:1076-1100 | quantity change of a historical order with queue, index, node and market index |
| `Simulator.PaperTradingSimulator.GetBestPriceTicks` | cpp/src/paper_trading_simulator.cpp:1312-1327 | the true best bid or ask in every reachable state, although the heap is cleaned lazily |
| `Simulator.PaperTradingSimulator.DepthAt` | cpp/src/paper_trading_simulator.cpp:1248-1261 | the lots resting at a price, or nothing |
| `Simulator.PaperTradingSimulator.L2TopN` | cpp/src/paper_trading_simulator.cpp:1263-1310 | the first n of all levels with lots, in price order |
| `Simulator.PaperTradingSimulator.ClearState` | cpp/src/paper_trading_simulator.cpp:1219-1246 | everything but the event counter is forgotten, the log included |
| `Simulator.PaperTradingSimulator.InitFromL2Snapshot` | cpp/src/paper_trading_simulator.cpp:1108-1154 | rows up to the first duplicate price are in the book, each as an order of its lots at its place while nodes last; refused if and only if a row repeats the place of one of these; valid if and only if the rows that were read and found a node have positive lots and bids below asks |
| `Simulator.PaperTradingSimulator.InitFromL3Snapshot` | cpp/src/paper_trading_simulator.cpp:1156-1217 | the same for single orders with ids, refused for a repeated id; orders that find no node must name levels that are there; a size mismatch, trader ids included, starts empty |
| `EngineSteps.ShadowStep` | cpp/src/paper_trading_simulator.cpp:515-582 | the recursive shadow walk, one order at a time |
| `EngineSteps.SweepStep` | cpp/src/paper_trading_simulator.cpp:601-648 | the recursive sweep, one order at a time |
| `EngineMatch.MatchUnfold` | cpp/src/paper_trading_simulator.cpp:128-245 | the matching recursion, one level at a time, always shrinking the remainder |
| `EngineMatch.DryNext` | cpp/src/paper_trading_simulator.cpp:150-181 | the dry run, one level at a time |
| `Snapshot.SeededInv` | cpp/src/paper_trading_simulator.cpp:1108-1217 | a snapshot with positive lots and bids below asks that fits the pool starts the engine inside the invariant |
| `Snapshot.SeededInvExactly` | cpp/src/paper_trading_simulator.cpp:1108-1217 | and only such a one does, among accepted snapshots that fit the pool |
| `Snapshot.SnapshotInvExactly` | cpp/src/paper_trading_simulator.cpp:1108-1217 | the exact condition for every snapshot, accepted or not, within the pool or beyond it, read off the rows |
| `Snapshot.AcceptedInvExactly` | cpp/src/paper_trading_simulator.cpp:1184-1215 | for an accepted snapshot: the first rows, up to the pool, are well formed, and further single orders name levels that these have made |
| `Snapshot.RowsReadAccepted` | cpp/src/paper_trading_simulator.cpp:1173-1176 | the rows before the first duplicate are accepted, and the state is theirs |
| `Snapshot.BeyondPads` | cpp/src/paper_trading_simulator.cpp:1182-1206 | beyond the pool single orders leave nothing but levels without orders |
| `Snapshot.BeyondSkips` | cpp/src/paper_trading_simulator.cpp:1120-1140 | beyond the pool aggregated rows leave nothing |
| `Snapshot.ExhaustedLeavesLevel` | cpp/src/paper_trading_simulator.cpp:1190-1206 | one such step: a single order at a new price beyond the pool leaves an empty level, and the invariant is lost |
| `Snapshot.SeededQueues` | cpp/src/paper_trading_simulator.cpp:1184-1215 | every queue is exactly the rows of its place, in order, stamped by position |
| `SnapshotRows.AcceptedExactly` | cpp/src/paper_trading_simulator.cpp:1108-1217 | a snapshot is accepted if and only if no row repeats the place, or the id, of one of the rows that find a node; then queues, nodes, index and counters are exactly those rows, and an aggregated one enters no id |
| `SnapshotRows.RowsInBook` | cpp/src/paper_trading_simulator.cpp:1108-1217 | each of these rows is in the queue of its place, with its id and lots, stamped by its position |
| `Snapshot.SeededStuck` | cpp/src/paper_trading_simulator.cpp:1173-1176 | after a duplicate the rest of the snapshot is not read |
| `Snapshot.TopHead` | cpp/src/paper_trading_simulator.cpp:1263-1327 | in every reachable state the list starts with the best price and its depth, and is empty only with the side |
| `Snapshot.TopMeans` | cpp/src/paper_trading_simulator.cpp:1263-1310 | the whole list: at most n levels, best first, each with its depth, and every level with lots that is not listed ranks behind n listed ones |
| `Snapshot.TopNext` | cpp/src/paper_trading_simulator.cpp:1284-1293 | the bounded list keeps the best n of all levels seen |
| `Snapshot.RankedFacts` | cpp/src/paper_trading_simulator.cpp:1299-1309 | the price order lists every price once, best first |
| `Counterexamples.PhantomLotsHappen` | cpp/src/paper_trading_simulator.cpp:633-689 | three events from an empty engine lead to a level with a phantom lot ahead of a live order |
| `Counterexamples.NamelessOrderIsLost` | cpp/src/paper_trading_simulator.cpp:1143-1152 | after an aggregated snapshot, an order added under the id -1 loses its index entry while it rests |
| `Named.StepIndexed` | cpp/src/paper_trading_simulator.cpp:48-83 | if every resting order is found under its id, every event keeps it so, with no condition on ids |
| `Named.RunIndexed` | cpp/src/paper_trading_simulator.cpp:48-83 | the same over every run |
| `Named.SeededIndexed` | cpp/src/paper_trading_simulator.cpp:1184-1215 | a snapshot of single orders starts with every order indexed |
| `Nameless.LostExactly` | cpp/src/paper_trading_simulator.cpp:203-226 | the order indexed under the id -1 can lose its entry while it rests, in some continuation, if and only if another order without an id rests opposite, or ahead of it in price-then-arrival order |
| `Nameless.RunSafe` | cpp/src/paper_trading_simulator.cpp:203-226 | without such an order the entry lives as long as its order, over every run |
| `Nameless.Thief` | cpp/src/paper_trading_simulator.cpp:203-226 | with such an order, one historical ADD that takes exactly up to it loses the entry |
| `Nameless.TakeThrough` | cpp/src/paper_trading_simulator.cpp:121-245 | an aggressor with exactly the lots ahead takes the ladder down to a given order and nothing else |
| `Phantom.SweepOutcome` | cpp/src/paper_trading_simulator.cpp:601-648 | a sweep of one level empties it, or leaves phantom lots, exactly by the lots: phantom if and only if front remainder <= lots < all remainders |
| `Phantom.SweepPhantoms` | cpp/src/paper_trading_simulator.cpp:247-266 | a sweep over levels makes phantom lots if and only if it ends inside a level whose front order it has filled |
| `Phantom.SplitsSomewhere` | cpp/src/paper_trading_simulator.cpp:247-266 | the same guard in one look: at some price within the limit the lots past all better prices fill the front order but not the level |
| `Phantom.MatchWaiting` | cpp/src/paper_trading_simulator.cpp:226-245 | which strategy orders an aggressor with lots to spare leaves to its sweep, from the state before the call; matching makes no phantom lots |
| `Phantom.StepPhantoms` | cpp/src/paper_trading_simulator.cpp:48-83 | from a state without phantom lots, an update leads to one without if and only if its direct sweep splits no level |
| `Phantom.RunPhantoms` | cpp/src/paper_trading_simulator.cpp:48-83 | a run stays without phantom lots throughout if and only if none of its sweeps splits a level |
| `Phantom.EmptyRunPhantoms` | cpp/src/paper_trading_simulator.cpp:48-83 | the same from an empty engine |
| `Phantom.SeededRunPhantoms` | cpp/src/paper_trading_simulator.cpp:1108-1217 | the same from every snapshot that starts inside the invariant |
| `Phantom.LotsQueuedExactly` | cpp/include/lobsim/paper_trading_simulator.hpp:200-208 | the lots queued equal the resting remainders on every stored level if and only if there are no phantom lots |
| `Phantom.ReachableFifo` | cpp/src/paper_trading_simulator.cpp:490-583 | in every reachable state a level fills in FIFO order for every trade size if and only if it has no phantom lots |
| `Phantom.ShadowAtFifo` | cpp/src/paper_trading_simulator.cpp:490-583 | the shadow report of a trade there, and what it leaves, are those of the FIFO walk |
| `Phantom.TradeLevelFifo` | cpp/src/paper_trading_simulator.cpp:182-242 | a level of matching reports its real fills, then the FIFO walk's shadow fills |
| `Slots.MixedInjective` | cpp/include/lobsim/flat_hash_map.hpp:1251-1252 | the multiplier is invertible, so no two 64-bit keys mix to the same word |
| `Slots.HomeInRange` | cpp/include/lobsim/flat_hash_map.hpp:1251-1264 | the home slot is inside the table |
| `Slots.NotThere` | cpp/include/lobsim/flat_hash_map.hpp:358-367 | a probe that meets a slot nearer to its home proves that the key is absent |
| `Slots.ProbeInside` | cpp/include/lobsim/flat_hash_map.hpp:358-367 | no probe leaves the slots or reads the end sentinel's value |
| `Slots.RiseBound` | cpp/include/lobsim/flat_hash_map.hpp:358-367 | over any stretch of slots the distance rises by at most one a slot |
| `Slots.CarryInside` | cpp/include/lobsim/flat_hash_map.hpp:607-630 | no displacement reaches the end sentinel |
| `Slots.ProbeCrowd` | cpp/include/lobsim/flat_hash_map.hpp:358-367 | a probe of length d has passed d entries |
| `Slots.CarryCrowd` | cpp/include/lobsim/flat_hash_map.hpp:607-630 | a displacement that hits the probe limit has passed more entries than the limit, so a table with fewer cannot hit it |
| `Slots.Land` | cpp/include/lobsim/flat_hash_map.hpp:602-605 | landing in an empty slot restores all invariants and stores the new map |
| `Slots.SwapOn` | cpp/include/lobsim/flat_hash_map.hpp:617-620 | a swap keeps all invariants, with the displaced item carried on |
| `Slots.SwapBack` | cpp/include/lobsim/flat_hash_map.hpp:622-627 | giving up loses and doubles no entry: the slots store the map from before |
| `Slots.OpenGap` | cpp/include/lobsim/flat_hash_map.hpp:458-461 | taking an item out leaves a gap with everything else in place |
| `Slots.ShiftBack` | cpp/include/lobsim/flat_hash_map.hpp:462-465 | a backward shift keeps the map and moves the gap on |
| `Slots.CloseGap` | cpp/include/lobsim/flat_hash_map.hpp:462-466 | when the next item is at home all invariants hold again |
| `FlatHashMaps.FlatHashMap.Find` | cpp/include/lobsim/flat_hash_map.hpp:358-367 | finds a key if and only if the map has it, with its value |
| `FlatHashMaps.FlatHashMap.Emplace` | cpp/include/lobsim/flat_hash_map.hpp:387-399 | adds the entry unless the key is known; terminates, and the table never grows beyond twice a size that suffices for its entries |
| `FlatHashMaps.PowSuffices` | cpp/include/lobsim/flat_hash_map.hpp:574-577 | two to the number of entries suffices, so every insertion ends |
| `FlatHashMaps.FlatHashMap.EmplaceNewKey` | cpp/include/lobsim/flat_hash_map.hpp:596-605 | a new key is stored in its slot or after growth; terminates |
| `FlatHashMaps.FlatHashMap.Displace` | cpp/include/lobsim/flat_hash_map.hpp:606-630 | displacement, and the swap-back-then-grow path, store exactly the new map |
| `FlatHashMaps.FlatHashMap.Rehash` | cpp/include/lobsim/flat_hash_map.hpp:416-449 | the new table stores the same map, even if it grows again on the way |
| `FlatHashMaps.FlatHashMap.Refill` | cpp/include/lobsim/flat_hash_map.hpp:440-447 | every item of the old slots arrives, once |
| `FlatHashMaps.FlatHashMap.Grow` | cpp/include/lobsim/flat_hash_map.hpp:633-633 | repairs the broken layout: same map, larger table |
| `FlatHashMaps.FlatHashMap.EraseAt` | cpp/include/lobsim/flat_hash_map.hpp:458-467 | removes one entry by backward shifts |
| `FlatHashMaps.FlatHashMap.Erase` | cpp/include/lobsim/flat_hash_map.hpp:495-503 | removes a key if present and says so |
| `Merge.PushOk` | cpp/include/lobsim/multibook_simulator.hpp:402-418 | a push keeps one heap entry for everything that waits |
| `Merge.PopOk` | cpp/include/lobsim/multibook_simulator.hpp:205-245 | a pop keeps it too |
| `Merge.DeliverOrdered` | cpp/include/lobsim/multibook_simulator.hpp:205-245 | delivering the first entry keeps time order and no look-ahead |
| `Merge.HeadIsBefore` | cpp/include/lobsim/multibook_simulator.hpp:402-418 | the first entry is at or before every buffered event, strictly if it is a strategy event |
| `Merge.AcceptedRises` | cpp/include/lobsim/multibook_simulator.hpp:463-495 | what a stream contributes never goes back in time |
| `Merge.AcceptedNext` | cpp/include/lobsim/multibook_simulator.hpp:463-495 | event by event: a stream contributes an event if and only if times are not checked or no event before it was later |
| `Merge.HeadIsNext` | cpp/include/lobsim/multibook_simulator.hpp:402-418 | the first entry stands for what goes next, field by field: earliest receive time, streams before strategies, earliest exchange time, lowest index, among the next events of all streams and all waiting strategy events |
| `Merge.TakeStream` | cpp/include/lobsim/multibook_simulator.hpp:226-241 | taking a buffered event loses, doubles and reorders nothing |
| `Merge.TakeStrategy` | cpp/include/lobsim/multibook_simulator.hpp:214-224 | a strategy event is taken once |
| `Merge.AllTaken` | cpp/include/lobsim/multibook_simulator.hpp:205-210 | when the merge is idle every accepted event has been taken, once and in order |
| `Merge.NothingPending` | cpp/include/lobsim/multibook_simulator.hpp:247-261 | when the first entry lies beyond t, so does all that is still to come |
| `MultiBook.MultiBookSimulator.Step` | cpp/include/lobsim/multibook_simulator.hpp:205-245 | delivers what goes next by receive time, kind, exchange time and index, as in `Merge.HeadIsNext`; keeps the conservation invariant and every engine the run of its book's deliveries; orderly runs refuse none; idle only when all is delivered |
| `MultiBook.MultiBookSimulator.StepUntil` | cpp/include/lobsim/multibook_simulator.hpp:247-261 | delivers nothing beyond the time and leaves nothing pending at or before it, neither on the heap nor in a stream; terminates |
| `MultiBook.MultiBookSimulator.StepFor` | cpp/include/lobsim/multibook_simulator.hpp:263-269 | the same for a span from now, or from 0 before the first event; a span of zero or less does nothing |
| `MultiBook.MultiBookSimulator.FillBuffer` | cpp/include/lobsim/multibook_simulator.hpp:463-495 | buffers the next event that is not behind the last, skipping or failing on bad ones; what each stream still contributes stays the same |
| `MultiBook.MultiBookSimulator.PrimeStreams` | cpp/include/lobsim/multibook_simulator.hpp:454-461 | every stream that can give something is buffered, and what each still contributes stays the same |
| `MultiBook.MultiBookSimulator.SubmitStrategyEvent` | cpp/include/lobsim/multibook_simulator.hpp:161-196 | accepted, refused as unknown or as out of time, exactly; queued at its own time plus the latency, or without a time at the present plus the latency, 1 if none is given |
| `MultiBook.MultiBookSimulator.ApplyToBook` | cpp/include/lobsim/multibook_simulator.hpp:431-452 | runs the event on the engine of its book, unless the book is unknown or the clock would run backwards; other engines stay as they are |
| `MultiBook.MultiBookSimulator.DeliverHead` | cpp/include/lobsim/multibook_simulator.hpp:205-245 | the event that goes next by receive time, kind, exchange time and index reaches its book; orderly runs refuse none |
| `BookTables.BookTable.Apply` | cpp/include/lobsim/multibook_simulator.hpp:431-452 | every engine has run exactly the events of its book, from its own start; a delivery changes one engine only |
| `BookTables.BookTable.Add` | cpp/include/lobsim/multibook_simulator.hpp:41-53 | a new book gets its own engine, a known one keeps the engine it has |
| `MultiBook.MultiBookSimulator.AddStream` | cpp/include/lobsim/multibook_simulator.hpp:296-315 | one stream a book, with an empty engine if the book is new; before the first step it keeps the run orderly |
| `MultiBook.MultiBookSimulator.AddBook` | cpp/include/lobsim/multibook_simulator.hpp:41-53 | a known book is not added again and keeps its engine |
| `BlockingQueue.StepInv` | benchmark/blocking_queue.hpp:47-120 | every step of every thread keeps FIFO order, the bound and the wakeup conditions |
| `BlockingQueue.TraceInv` | benchmark/blocking_queue.hpp:47-120 | they hold in every state of every interleaving |
| `BlockingQueue.PushStep` | benchmark/blocking_queue.hpp:47-76 | an accepted push sends a wakeup after its item |
| `BlockingQueue.PopStep` | benchmark/blocking_queue.hpp:83-108 | a pop sends a wakeup after its free place |
| `BlockingQueue.CloseStep` | benchmark/blocking_queue.hpp:113-120 | closing forgets no sleeper |
| `BlockingQueue.NothingAfterClose` | benchmark/blocking_queue.hpp:113-120 | after the close nothing is accepted, and only accepted items come out |
| `BlockingQueue.Returns` | benchmark/blocking_queue.hpp:47-108 | refusals only when closed or without capacity, empty hands only when closed and drained, pops in order |
| `BlockingQueue.SleepForAReason` | benchmark/blocking_queue.hpp:47-120 | when no thread can move, consumers sleep only on an open empty queue and producers only on an open full one |
| `Wire.Trim` | benchmark/normalized_event_parser.hpp:13-23 | the two loops cut exactly the blank edges |
| `Wire.TrimmedIsTidy` | benchmark/normalized_event_parser.hpp:13-23 | what is left has no blank edge |
| `Wire.TrimmedCuts` | benchmark/normalized_event_parser.hpp:13-23 | what is cut off at either end is blank |
| `Wire.NextField` | benchmark/normalized_event_parser.hpp:25-39 | the field at the cursor, trimmed, and the cursor behind its comma |
| `Wire.ParseInt64` | benchmark/normalized_event_parser.hpp:41-46 | a decimal number to the end of the field within 64 bits, or nothing |
| `Wire.NumberRoundTrip` | benchmark/normalized_event_parser.hpp:41-46 | a printed number parses to itself if and only if it fits 64 bits |
| `Wire.PlaceValue` | benchmark/normalized_event_parser.hpp:41-46 | digits count by their place: those in front by a power of ten for each digit behind |
| `Wire.ColumnsFrom` | benchmark/normalized_event_parser.hpp:25-39 | any line, as the columns between its commas: reading n fields gives the first n columns, trimmed, or nothing if it has fewer; an empty column at the end does not count |
| `Wire.JoinedFields` | benchmark/normalized_event_parser.hpp:25-39 | fields joined with commas are found again, in order |
| `Wire.LineRoundTrip` | benchmark/normalized_event_parser.hpp:60-133 | a printed line parses to the event it was printed from |
| `Wire.ColumnsRead` | benchmark/normalized_event_parser.hpp:76-128 | which column each field of a parsed event is, with the codes of side, update type and source, and exactly when eleven columns are an event |
| `Wire.ColumnsPrinted` | benchmark/lobsim_event_generator.cpp:357-384 | a printed line has the same columns |
| `Wire.ParseNormalizedEvent` | benchmark/normalized_event_parser.hpp:60-133 | reads eleven fields, fails on the first missing or malformed one or an unknown code |
| `Wire.ParsedIsPrintable` | benchmark/normalized_event_parser.hpp:60-133 | every line that parses gives an event that prints and parses back |
| `Datagrams.SplitPayload` | benchmark/lobsim_udp_main.cpp:260-272 | the lines of a payload, trimmed, empty ones dropped |
| `Datagrams.SplitPieces` | benchmark/lobsim_udp_main.cpp:260-272 | any payload, as the pieces between its newlines: the lines are the pieces, trimmed, without the blank ones, in order |
| `Datagrams.SplitText` | benchmark/lobsim_udp_main.cpp:260-272 | splitting a datagram gives back its lines |
| `Datagrams.Generator.EmitLine` | benchmark/lobsim_event_generator.cpp:357-393 | the batch goes out, whole, only if the new line would pass the byte limit or the batch has its lines already; the line joins the batch or starts the next one; nothing emitted is lost or reordered; datagrams keep both limits unless a single line |
| `Datagrams.LineFitsBuffer` | benchmark/lobsim_event_generator.cpp:357-384 | the 256-byte line buffer holds every event of a symbol if and only if the symbol has at most 102 characters |
| `Datagrams.Generator.FlushBatch` | benchmark/lobsim_event_generator.cpp:346-355 | the batch goes out whole, and nothing if it is empty |
| `Datagrams.EndToEnd` | benchmark/lobsim_event_generator.cpp:346-393 | print, batch, split and parse give the same events in the same order |
| `Datagrams.Transmit` | benchmark/lobsim_event_generator.cpp:346-393 | emitting a list and flushing delivers exactly that list |
| `MultiSink.Collect` | cpp/include/lobsim/multi_log_sink.hpp:83-120 | reading a log at a book's positions is filtering the log by book |
| `MultiSink.IndexNext` | cpp/include/lobsim/multi_log_sink.hpp:57-70 | an appended record keeps the index exact for every book |
| `MultiSink.PositionsProject` | cpp/include/lobsim/multi_log_sink.hpp:83-120 | index positions and filtering agree |
| `MultiSink.SeenNext` | cpp/include/lobsim/multi_log_sink.hpp:57-65 | one more record is replayed by its book alone |
| `MultiSink.InMemoryMultiLogSink.OnFill` | cpp/include/lobsim/multi_log_sink.hpp:57-62 | log, index and the book's ledger follow; other books see nothing |
| `MultiSink.InMemoryMultiLogSink.OnEventApply` | cpp/include/lobsim/multi_log_sink.hpp:63-67 | log, index, ledger and refusals of the book follow; other books see nothing |
| `MultiSink.InMemoryMultiLogSink.FillsFor` | cpp/include/lobsim/multi_log_sink.hpp:83-94 | the global log filtered by book |
| `MultiSink.InMemoryMultiLogSink.EventsFor` | cpp/include/lobsim/multi_log_sink.hpp:96-107 | the global log filtered by book |
| `MultiSink.InMemoryMultiLogSink.DiagnosticsFor` | cpp/include/lobsim/multi_log_sink.hpp:109-120 | the global log filtered by book |
| `MultiSink.InMemoryMultiLogSink.PaperLedgerFor` | cpp/include/lobsim/multi_log_sink.hpp:130-137 | the ledger a single-book sink has after this book's records alone |
| `MultiSink.InMemoryMultiLogSink.DrainFills` | cpp/include/lobsim/multi_log_sink.hpp:158-163 | hands over the log, touches no ledger |
| `MultiSink.InMemoryMultiLogSink.ResetAll` | cpp/include/lobsim/multi_log_sink.hpp:72-81 | forgets everything |
| `MultiSink.BookScopedSink.OnFill` | cpp/include/lobsim/multi_log_sink.hpp:26-32 | fills in the book where none is named |
| `L2Adapter.Adapter.NormalizeL2` | python/lobsim/demo_utils/common.py:183-240 | ADD adds to its level, SUBTRACT and trades take off it and remove it when they cover it, SET replaces, DELETE removes, no level goes below zero and all others stay; the event carries what the level has then, as ADD, SET or DELETE |
| `L2Adapter.Adapter.SeedL2Levels` | python/lobsim/demo_utils/common.py:172-181 | each level has the lots of the last row that gives it any; empty rows are skipped, the shortest list counts |
| `L2Adapter.StreamWellFormed` | python/lobsim/demo_utils/common.py:215-228 | ADD with lots only for an absent level, SET and DELETE only for a live one |
| `L2Adapter.LineDepth` | python/lobsim/demo_utils/common.py:183-240 | the engine's depth after a line that fits: at its level moved by the line as the table is, at every other price unchanged |
| `L2Adapter.FeedDepth` | python/lobsim/demo_utils/common.py:183-240 | the same at every line of a feed whose lines fit |
| `L2Adapter.StepMirrors` | python/lobsim/demo_utils/common.py:183-240 | feeding the engine the event keeps its book the mirror of the table |
| `L2Adapter.StepMirrorsExactly` | python/lobsim/demo_utils/common.py:183-240 | one line keeps the mirror if and only if a level it makes shares no id with a level of the table, crosses nothing and finds a node |
| `L2Adapter.RunMirrorsExactly` | python/lobsim/demo_utils/common.py:183-240 | the engine mirrors the table after every line of a feed if and only if every line is such |
| `L2Adapter.RunMirrors` | python/lobsim/demo_utils/common.py:183-240 | with ids that tell the levels which occur apart, no crossing and room, the engine mirrors the table after a feed |
| `L2Adapter.EmptyMirrors` | python/lobsim/demo_utils/common.py:158-170 | an empty engine mirrors an empty table |
| `L2Adapter.MirrorDepth` | cpp/src/paper_trading_simulator.cpp:1248-1261 | a mirror has the table's depth at every price |
| `L2Adapter.MirrorIds` | python/lobsim/demo_utils/common.py:88-89 | the engine knows a level's id exactly while the table has the level |
| `L2Adapter.SeededMirrors` | python/lobsim/demo_utils/common.py:350-358 | an engine started from the snapshot's levels mirrors the seeded table |
| `L2Adapter.SeededMirrorsExactly` | python/lobsim/demo_utils/common.py:350-358 | a snapshot of distinct levels that fits is accepted and mirrored if and only if no two levels share an id and nothing crosses |

## Left out

- Simulator.PaperTradingSimulator.InitFromL3Snapshot: trader ids count for the size check only; no order keeps one.
- Simulator.PaperTradingSimulator.L2TopN: the bounded priority queue and the final sort are one best-first list.
- Agreement.RunAgrees: for strategy orders and aggressive trades with ids that are new to the ledger, and room in the paper pool for what comes to rest; `AgreementLimits.RunAgreesExactly` needs neither and gives the exact condition.
- NonInterference.InsertedRunsAlike: for runs without strategy MATCH events, which do change the book, and without historical ADDs under the id of a resting strategy order, which the engine refuses; under these `InsertedRunsExactly` gives the exact condition.
- FlatHashMaps.FlatHashMap.Emplace: table sizes are mathematical integers, so an allocation never fails; keys chosen to share their top bits make the table grow up to two to the number of entries, or to the size of the key space; the standard hash of an integer is the integer; range erase, iterators, copying, clearing and the prime-number policy are not modelled.
- MultiBook.MultiBookSimulator.Step: the diagnostics that go with refused events, stream adapters, exceptions of sources, and snapshots or direct `apply` calls between steps are not modelled; a stream that joins after the first step is modelled, but the order claims are then not made.
- BlockingQueue.StepInv: a step system rather than a class, because its threads interleave; waiting times and counters are not modelled.
- Datagrams.Transmit: datagrams arrive, in order and whole; the receiver's buffer size is not modelled. A line is a string of any length: `LineFitsBuffer` says when the printer's 256-byte buffer holds it.
- L2Adapter.RunMirrors: the hash behind level ids is not part of this model, any function of the level stands for it; prices and sizes come in ticks and lots, after the checks of `normalize`; records that carry an order id are not modelled.
- Timestamps inside the engine, trader ids, symbol ids and diagnostic texts.
- 64-bit widths of prices and quantities: they are mathematical integers, except where text is parsed.
- Update in place of Fenwick trees and queues inside the engine's maps: the class holds them as values, `Fenwick.FenwickTree` models the tree itself in place.
- Pointers from index entries to nodes: an order is named by its arrival stamp or its id, and its slot by the node pool.
- Which of its two live statuses the engine's own record of a strategy order has: nothing reads the difference, and the contracts leave it open.
- The engine's "corrupt book" and missing-entry branches: the invariant rules them out.
- The historical branch order where it cannot be seen: a queue is written back after its fills, and index updates follow the reported fill.
- Changing the sink: the engine always has one.
- Replay.ReplaySession.RunAdapted: the adapter is a function from a record to an event or nothing; exceptions carry no text.
- Parquet, sockets, thread metrics, random event generation, bindings, demos and floating-point accounts.
