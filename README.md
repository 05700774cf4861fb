# Gas telemetry store — a verified Dafny model

This project models the core of a multi-chain gas price tracker: the zustand store that holds the
gas readings of Ethereum, Polygon and Arbitrum, the ETH and MATIC prices, the transaction-cost
simulation and the UI settings; the candlestick aggregation the chart draws from a chain's history;
the small derivations the widgets show (trend, total fee, "last update" text, connection count,
cheapest chain, input defaulting); and the demo data service that feeds the store with a floored
random walk.

Modules: one per modelled source file, plus `StoreProperties` (lemmas about the store) and
`TimeAgo` (the relative-time text the widget and the dashboard share):

- `GasStore` (`gas_store.dfy`) holds the state record `GasState` and the actions of
  `src/store/gasStore.ts`.
  - Each action is an `Action` value, and `Step(s, a)` is the state it leaves behind. `Run`
    applies a sequence of actions, first to last.
  - The class `Store` holds the state in a mutable field. Each method updates it in place and
    promises `state == Step(old(state), ...)`.
  - `calculateSimulationCosts` fills its results entry by entry in the loop `ComputeCosts`.
- `StoreProperties` (`gas_store_props.dfy`) proves what each action changes and what it leaves
  alone:
  - the 1000-sample history bound, along any sequence of actions;
  - the partial-merge laws;
  - the cost formula, with its division by 1e18 as written (the fees are in gwei, so the
    program's gas costs are 1e9 times below the ether they stand for);
  - idempotence of the recalculation;
  - polygon costing 0 USD while the MATIC price is still 0.
- `GasChart` (`gas_chart.dfy`) covers `generateCandlestickData`: the grouping loop, the candle
  loop and the sort. It also holds `getPriceChange` and `getCurrentPrice`.
- `SimulationPanel`, `GasPriceWidget`, `Dashboard` and `TimeAgo` hold the view derivations. The
  relative-time text is shared by the widget and the dashboard.
- `DemoData` (`demo_data_service.dfy`) is the demo service as a class.
  - Its methods issue the same store calls in the same order as the source.
  - Each store-changing method is proved equal to `Run` of an explicit action list, except
    `UpdateEthPrice`, proved equal to a single `Step`, and `AddInitialPoints`, stated as one
    back-filled sample appended to each chain's history. `StartPeriodicUpdates` and `Stop` change only
    the timer registry.
  - Lemmas state what those lists do to the state: the floors and step bounds of the walk, the
    back-filled series, the start-up effect and the tick effect.

Numbers are exact `real`s (fees in gwei, prices in USD). Times are `int` milliseconds.
`Date.now()` is a parameter `now`. Each `Math.random()` draw is a parameter `r`; for a whole
call, the draws are a sequence `rs` in the order the source makes them.

Two behaviours of the code are modelled as written:

- `updateUsdPrices(eth, matic)` keeps the MATIC price unless `matic` is present and non-zero,
  because `||` treats 0 as absent. The MATIC price starts at 0 and the demo never sets it, so
  polygon's USD costs stay 0 (`MaticStaysZeroUntilPriced`).
- `generateInitialData` reads the chain histories from the state object it fetched before its
  loop. zustand's `set` replaces that object, so the "set the current reading from the newest
  sample" branches see the histories as they were before the back-fill. From the empty
  histories of start-up, the branches do nothing. Each chain then keeps its zero fees and
  `lastUpdate` until the first gas tick (`InitialDataFromEmpty`). The model keeps this
  behaviour.

## Model

| member | source | states |
|---|---|---|
| `GasStore.Chains.With` | src/store/gasStore.ts:147-172 | `{...state.chains, [chain]: ...}`: the named chain's record is the new one and every other chain's record is unchanged |
| `GasStore.ConnectionStatus.With` | src/store/gasStore.ts:196-201 | `{...state.connectionStatus, [service]: status}`: the named flag is the new value and every other flag is unchanged |
| `GasStore.ConnectionStatus.Values` | src/components/Dashboard.tsx:26 | `Object.values(connectionStatus)` in key order; `Dashboard.ConnectionCountIsSum` states the count taken over it |
| `GasStore.InitialChain` | src/store/gasStore.ts:80-122 | `{...initialChainData, name, symbol, rpcUrl, explorer, color}`: zero fees, empty history, never updated, not connected; `GasStore.Store.constructor` and `StoreProperties.InitialStateBounded` state the initial state built from it |
| `GasStore.Capped` | src/store/gasStore.ts:161-163 | `slice(-1000)`: at most 1000 samples, and exactly the newest ones |
| `GasStore.AppendCapped` | src/store/gasStore.ts:159-174 | the new history is the last min(n+1, 1000) elements of `old ++ [p]`; it ends with `p`, and on a full history the oldest sample is dropped |
| `GasStore.MergeChain` | src/store/gasStore.ts:147-157 | partial merge: every field present in the partial is overwritten, every absent one is kept, and `lastUpdate` is the call time |
| `GasStore.MergeSimulation` | src/store/gasStore.ts:183-189 | partial merge of the simulation inputs: present fields overwritten, absent ones kept |
| `GasStore.MaticAfter` | src/store/gasStore.ts:179 | `maticPrice \|\| current`: the price is kept, or replaced by a present non-zero argument |
| `GasStore.AppendAll` | src/store/gasStore.ts:159-174 | `addGasPoint` called with each sample in turn on one history; its contract is `StoreProperties.AppendAllKeepsNewest` (the newest 1000 of the old history followed by the samples) |
| `GasStore.CostOf` | src/store/gasStore.ts:208-218 | gas cost in ETH times 1e18 is total fee times gas limit; gas cost in USD is that times the price; total = gas cost + transaction value in USD |
| `GasStore.CostEntryFor` | src/store/gasStore.ts:207-224 | one pass of the per-chain `forEach`: the chain's entry costed at its USD price; `StoreProperties.CostTableEntries` states each entry's chain, price choice and three costs |
| `GasStore.UsdPriceFor` | src/store/gasStore.ts:211-214 | the conversion price is MATIC's for polygon and ETH's for every other chain; `StoreProperties.CostTableEntries` and `PolygonFreeWhileMaticUnpriced` state its effect on the costs |
| `GasStore.CostEntryOfFormula` | src/store/gasStore.ts:208-218 | the loop body's step-by-step arithmetic yields exactly that chain's entry of the cost table |
| `GasStore.CostTable` | src/store/gasStore.ts:203-225 | one entry per chain in key order (ethereum, polygon, arbitrum); each total is gas cost plus transaction value at that chain's USD price |
| `GasStore.ComputeCosts` | src/store/gasStore.ts:207-225 | the loop that fills `results` builds exactly the cost table |
| `GasStore.Step` | src/store/gasStore.ts:145-233 | the state each store action leaves; its per-action effects and frames are the contracts of the `Store` methods and of `StoreProperties.UpdateChainDataIsPartialMerge`, `AddGasPointOnlyTouchesHistory`, `UpdateUsdPricesEffect`, `SettersChangeOnlyTheirField`, `CalculateReplacesResults` and `StepKeepsHistoriesBounded` |
| `GasStore.Run` | src/store/gasStore.ts:145-233 | store calls applied first to last; `RunSnoc`, `RunPair` and `StoreProperties.RunAppend` state how runs compose |
| `GasStore.RunSnoc` | src/store/gasStore.ts:145-233 | one more call at the end of a run is one more step |
| `GasStore.RunPair` | src/store/gasStore.ts:145-233 | two calls in a row are the two steps in that order |
| `GasStore.Store.constructor` | src/store/gasStore.ts:94-143 | the store starts in the initial state: live mode, empty histories, zero prices, 0.1 ETH / 21000 gas, empty results, 15m, ethereum, nothing connected |
| `GasStore.Store.SetMode` | src/store/gasStore.ts:145 | the new state is the `setMode` transition of the old one |
| `GasStore.Store.UpdateChainData` | src/store/gasStore.ts:147-157 | the new state is the old one with the chain merged and stamped |
| `GasStore.Store.AddGasPoint` | src/store/gasStore.ts:159-174 | the new state is the old one with the point appended to that chain's history and the history trimmed to 1000 |
| `GasStore.Store.UpdateUsdPrices` | src/store/gasStore.ts:176-181 | the new state is the `updateUsdPrices` transition: ETH set, MATIC replaced only by a non-zero value, time stamped |
| `GasStore.Store.UpdateSimulation` | src/store/gasStore.ts:183-189 | the new state merges the partial into the simulation inputs |
| `GasStore.Store.SetChartTimeframe` | src/store/gasStore.ts:191 | the new state is the `setChartTimeframe` transition |
| `GasStore.Store.SetSelectedChain` | src/store/gasStore.ts:193 | the new state is the `setSelectedChain` transition |
| `GasStore.Store.UpdateConnectionStatus` | src/store/gasStore.ts:195-201 | the new state sets one service's flag |
| `GasStore.Store.CalculateSimulationCosts` | src/store/gasStore.ts:203-233 | the new state has `results` replaced whole by the cost table computed from the old state |
| `StoreProperties.CappedAfterCapped` | src/store/gasStore.ts:161-163 | trimming after each append equals trimming the whole concatenation once |
| `StoreProperties.AppendAllKeepsNewest` | src/store/gasStore.ts:159-174 | appending samples one call at a time keeps the newest 1000 of old history ++ new samples; nothing is dropped when they fit |
| `StoreProperties.RunAppend` | src/store/gasStore.ts:145-233 | running two action sequences one after the other is running their concatenation |
| `StoreProperties.RunTouchesChainsOnly` | src/store/gasStore.ts:147-174 | any run of `updateChainData` and `addGasPoint` calls changes nothing outside the chain records |
| `StoreProperties.ChainsThenRecalculate` | src/store/gasStore.ts:203-233 | chain updates followed by a recalculation change only the chains and the results, and the results are fresh for the final state |
| `StoreProperties.AddGasPointOnlyTouchesHistory` | src/store/gasStore.ts:159-174 | `addGasPoint` changes only that chain's history: no `lastUpdate` stamp, other chains and fields untouched; on a full history the oldest sample is gone |
| `StoreProperties.StepKeepsHistoriesBounded` | src/store/gasStore.ts:159-174 | no action lengthens a history past 1000, unless a partial supplies a longer history itself |
| `StoreProperties.RunKeepsHistoriesBounded` | src/store/gasStore.ts:159-174 | the 1000-sample bound is an invariant along any sequence of such actions |
| `StoreProperties.InitialStateBounded` | src/store/gasStore.ts:125-133 | the initial state is bounded, prices MATIC at 0 and has no results |
| `StoreProperties.UpdateChainDataIsPartialMerge` | src/store/gasStore.ts:147-157 | `updateChainData` merges into the named chain, stamps `lastUpdate`, and leaves other chains and all non-chain fields unchanged |
| `StoreProperties.MergeChainFacts` | src/store/gasStore.ts:150-155 | the empty partial only stamps the time; merging the same partial twice equals merging it once |
| `StoreProperties.UpdateUsdPricesEffect` | src/store/gasStore.ts:176-181 | ETH price and time always set; MATIC replaced exactly for a present non-zero argument; nothing else changes |
| `StoreProperties.ModeIsOrthogonal` | src/store/gasStore.ts:145 | switching mode touches no chain, price or simulation data, and switching back restores the state |
| `StoreProperties.SettersChangeOnlyTheirField` | src/store/gasStore.ts:183-201 | timeframe, selection, connection flag and simulation setters each change only their own field or key |
| `StoreProperties.CalculateReplacesResults` | src/store/gasStore.ts:203-233 | `results` is replaced whole with exactly the keys ethereum, polygon, arbitrum; transaction value and gas limit unchanged |
| `StoreProperties.CostTableEntries` | src/store/gasStore.ts:207-224 | per entry: gas cost in ETH is (base + priority) × gas limit / 1e18; MATIC price for polygon, ETH price otherwise; total = gas cost + value in USD |
| `StoreProperties.CalculateIsIdempotent` | src/store/gasStore.ts:203-233 | recalculating with nothing changed in between leaves the state as it was |
| `StoreProperties.PolygonFreeWhileMaticUnpriced` | src/store/gasStore.ts:211-218 | while the MATIC price is 0, polygon's gas and total USD costs are 0 |
| `StoreProperties.MaticStaysZeroUntilPriced` | src/store/gasStore.ts:126 | from a 0 MATIC price, no action sequence without a non-zero MATIC argument changes it, and polygon's total stays 0 |
| `StoreProperties.EthereumExample` | src/store/gasStore.ts:208-218 | 20 + 2 gwei × 21000 gas costs 462000 / 1e18 ETH; a 0.1 ETH transfer at 3000 USD adds 300 USD |
| `GasChart.IntervalMs` | src/components/GasChart.tsx:100-107 | the four bucket widths are positive whole seconds |
| `GasChart.BucketStart` | src/components/GasChart.tsx:114 | `Math.floor(timestamp / intervalMs) * intervalMs`; `BucketStartBounds` and `BucketOnWholeSecond` state its bounds and alignment |
| `GasChart.BucketStartBounds` | src/components/GasChart.tsx:114 | a timestamp lies in [bucket start, bucket start + width) |
| `GasChart.BucketOnWholeSecond` | src/components/GasChart.tsx:114 | every bucket start is a multiple of 1000 ms, so a candle's time in seconds is exact |
| `GasChart.Group` | src/components/GasChart.tsx:113-119 | a bucket's group never holds more samples than the history |
| `GasChart.BucketsAtMostSamples` | src/components/GasChart.tsx:113-119 | there are never more buckets than samples |
| `GasChart.DistinctKeysCount` | src/components/GasChart.tsx:113-119 | keys created once each number exactly as many as the buckets they list |
| `GasChart.GroupSnoc` | src/components/GasChart.tsx:113-119 | one more sample adds its bucket and is pushed at the end of that bucket's group only |
| `GasChart.GroupMembers` | src/components/GasChart.tsx:113-119 | a sample is in a bucket's group exactly when it is in the history and falls in that bucket |
| `GasChart.BucketsAreOccupied` | src/components/GasChart.tsx:113-119 | every sample's bucket is a key, and a key exactly when its group is non-empty |
| `GasChart.GroupOfAbsentBucket` | src/components/GasChart.tsx:113-119 | a bucket that no sample of the history falls in gets no group |
| `GasChart.GroupStartsWithFirst` | src/components/GasChart.tsx:126-128 | a group starts with the first sample of the history in that bucket |
| `GasChart.GroupEndsWithLast` | src/components/GasChart.tsx:126-129 | a group ends with the last sample of the history in that bucket |
| `GasChart.MaxFee` | src/components/GasChart.tsx:130 | `Math.max(...totalFees)`: bounds every total fee of the group and is one of them |
| `GasChart.MinFee` | src/components/GasChart.tsx:131 | `Math.min(...totalFees)`: below every total fee of the group and one of them |
| `GasChart.CandleOf` | src/components/GasChart.tsx:122-139 | time = bucket start / 1000; open/close = first/last total fee; high/low = max/min, so low ≤ open, close ≤ high |
| `GasChart.InsertByTime` | src/components/GasChart.tsx:142 | insertion adds exactly one candle (as a multiset) |
| `GasChart.InsertKeepsLowerBound` | src/components/GasChart.tsx:142 | inserting a candle no earlier than a bound into candles no earlier than it keeps every candle at or after the bound |
| `GasChart.ConsAscending` | src/components/GasChart.tsx:142 | a candle no later than all of an ascending list can lead it |
| `GasChart.ConsStrictlyAscending` | src/components/GasChart.tsx:142 | a candle earlier than all of a strictly ascending list can lead it |
| `GasChart.InsertKeepsAscending` | src/components/GasChart.tsx:142 | inserting into an ascending list keeps it ascending |
| `GasChart.InsertKeepsStrictlyAscending` | src/components/GasChart.tsx:142 | inserting a candle with a new time into a strictly ascending list keeps it strictly ascending |
| `GasChart.LastHasNewTime` | src/components/GasChart.tsx:142 | with distinct times, the last candle's time is new among any rearrangement of the others |
| `GasChart.SortByTime` | src/components/GasChart.tsx:142 | the sort returns an ascending permutation, strictly ascending when times are distinct |
| `GasChart.AddToGroups` | src/components/GasChart.tsx:113-119 | one pass of the `forEach`: creating the group if new and pushing the sample keeps groups and keys exactly those of the history extended by that sample |
| `GasChart.GroupByInterval` | src/components/GasChart.tsx:111-119 | the groups object has exactly the occupied buckets as keys, each holding its bucket's samples in order; keys are distinct multiples of 1000 |
| `GasChart.CandlesOfGroups` | src/components/GasChart.tsx:122-140 | one candle per key, in key order, each the candle of its group; times are distinct |
| `GasChart.GenerateCandlestickData` | src/components/GasChart.tsx:96-143 | empty history gives no candles; one candle per occupied bucket, so never more candles than samples; output strictly ascending in time; each candle is its bucket's candle; every sample's bucket has a candle |
| `GasChart.GetPriceChange` | src/components/GasChart.tsx:159-170 | fewer than 2 samples gives {0, 0}; otherwise change = last − previous total fee, and percentage × previous = change × 100 when previous ≠ 0 |
| `GasChart.ChangeAgreesWithTrend` | src/components/GasChart.tsx:166 | the sign of the chart's change matches the selected chain's trend icon |
| `GasChart.GetCurrentPrice` | src/components/GasChart.tsx:154-157 | the selected chain's base + priority fee, the same figure its widget displays |
| `SimulationPanel.ReduceCheapest` | src/components/SimulationPanel.tsx:74-79 | the min-fold is null only on no entries; else it returns the first entry of least total cost |
| `SimulationPanel.CheaperOf` | src/components/SimulationPanel.tsx:74-79 | the `reduce` callback never returns null, costs no more than the entry or the accumulator, is one of the two, and on a tie keeps the accumulator |
| `SimulationPanel.GetCheapestChain` | src/components/SimulationPanel.tsx:71-80 | null exactly for empty results; else an entry's chain and total, no greater than any total, earliest on ties |
| `SimulationPanel.CheapestAfterCalculation` | src/components/SimulationPanel.tsx:72 | after a recalculation there is always a cheapest chain |
| `SimulationPanel.TransactionValueInput` | src/components/SimulationPanel.tsx:35 | an unparsable value is stored as 0; a parsed one is stored as parsed |
| `SimulationPanel.GasLimitInput` | src/components/SimulationPanel.tsx:41 | an unparsable or zero limit becomes 21000; any other integer, negatives included, is kept; never 0 |
| `SimulationPanel.Toggled` | src/components/SimulationPanel.tsx:46 | the toggle always switches to the other mode |
| `SimulationPanel.ToggleTwiceRestores` | src/components/SimulationPanel.tsx:45-47 | toggling twice restores the mode |
| `SimulationPanel.SimulationForm.constructor` | src/components/SimulationPanel.tsx:21-22 | the input fields start as the given texts |
| `SimulationPanel.SimulationForm.HandleTransactionValueChange` | src/components/SimulationPanel.tsx:33-37 | keeps the typed text and merges the parsed-or-0 value into the store |
| `SimulationPanel.SimulationForm.HandleGasLimitChange` | src/components/SimulationPanel.tsx:39-43 | keeps the typed text and merges the parsed-or-21000 limit into the store |
| `SimulationPanel.SimulationForm.ToggleMode` | src/components/SimulationPanel.tsx:45-47 | the store's mode becomes the other one |
| `GasPriceWidget.TrendOf` | src/components/GasPriceWidget.tsx:16-28 | neutral with fewer than 2 samples; up / down / neutral exactly when the last total fee is above / below / equal to the previous |
| `GasPriceWidget.DisplayedTotal` | src/components/GasPriceWidget.tsx:121 | the displayed total is the per-gas rate the cost formula charges for any gas limit |
| `GasPriceWidget.LastUpdateTime` | src/components/GasPriceWidget.tsx:60-68 | "Never" exactly while `lastUpdate` is 0; "0s ago" within the first second |
| `GasPriceWidget.UpdateRefreshesLastUpdate` | src/components/GasPriceWidget.tsx:60-68 | after `updateChainData` the text reads "0s ago"; `addGasPoint` leaves it unchanged |
| `TimeAgo.Describe` | src/components/Dashboard.tsx:38-46 | "Never" iff the stamp is 0; otherwise floor seconds under 60000 ms (negative for a clock behind), floor minutes under 3600000, else floor hours |
| `Dashboard.CountTrue` | src/components/Dashboard.tsx:26 | `filter(Boolean).length`: between 0 and the length; 0 iff all false; the length iff all true |
| `Dashboard.ConnectionCount` | src/components/Dashboard.tsx:25-27 | the count lies in 0..4; 4 iff every service is connected, 0 iff none is |
| `Dashboard.ConnectionCountIsSum` | src/components/Dashboard.tsx:25-27 | the count is the number of true flags among the four services |
| `Dashboard.ConnectionCountStep` | src/components/Dashboard.tsx:25-27 | setting one flag moves the count by at most one, in the flag's direction |
| `Dashboard.LastUpdateTime` | src/components/Dashboard.tsx:38-46 | "Never" exactly while `lastPriceUpdate` is 0; "0s ago" within the first second |
| `Dashboard.PriceUpdateRefreshesText` | src/components/Dashboard.tsx:38-46 | right after `updateUsdPrices` the header reads "0s ago" |
| `DemoData.Max` | src/services/demoDataService.ts:123 | `Math.max` is the larger of its two arguments |
| `DemoData.Walks` | src/services/demoDataService.ts:121-160 | every walk step width is positive |
| `DemoData.Walk` | src/services/demoDataService.ts:123 | `max(floor, old + (r − 0.5) × k)` is ≥ floor and, for 0 ≤ r < 1, within k/2 of old unless lifted to the floor |
| `DemoData.NextFees` | src/services/demoDataService.ts:121-160 | a chain's two new fees are at or above their floors and each within half a step of the tick-start fee unless floored |
| `DemoData.TickPatch` | src/services/demoDataService.ts:126-130 | the partial `{baseFee, priorityFee, gasPrice: base + priority}`; its merged effect is stated by `TickedChain` and `ChainTickEffect` |
| `DemoData.TickPoint` | src/services/demoDataService.ts:132-137 | the tick's sample is stamped `now`, carries the new fees, and its total is their sum |
| `DemoData.ChainTick` | src/services/demoDataService.ts:121-137 | one chain's `updateChainData` then `addGasPoint`; `ChainTickEffect` states their effect |
| `DemoData.ChainTicks` | src/services/demoDataService.ts:121-173 | the three chains' shares in the order ethereum, polygon, arbitrum; `ChainTicksEffect` states their effect |
| `DemoData.TickActions` | src/services/demoDataService.ts:117-179 | the chains' shares, then `calculateSimulationCosts` only in simulation mode; `TickChainsEffect` and `TickOtherEffect` state the whole effect |
| `DemoData.TickedChain` | src/services/demoDataService.ts:121-173 | after a tick both fees respect their floors and each moved at most half a step down and, unless floored, less than half a step up; gas price = displayed total; `lastUpdate` = now; one sample with timestamp now and totalFee = base + priority appended; nothing else changed |
| `DemoData.ChainTickEffect` | src/services/demoDataService.ts:121-137 | one chain's update-then-sample turns that chain's record into its ticked record |
| `DemoData.ChainTicksEffect` | src/services/demoDataService.ts:121-173 | the three chains' shares, in order, tick each chain once from the tick-start readings |
| `DemoData.TickRun` | src/services/demoDataService.ts:175-178 | a tick is the chains' shares followed by a recalculation only in simulation mode |
| `DemoData.TickChainsEffect` | src/services/demoDataService.ts:117-179 | a whole tick turns every chain's record into its ticked record |
| `DemoData.TickOtherEffect` | src/services/demoDataService.ts:117-179 | a tick changes nothing outside the chains and the results; results recomputed in simulation mode, kept in live mode |
| `DemoData.ScaleWithin` | src/services/demoDataService.ts:187 | scaling a non-negative price by a factor between two bounds keeps it between the scaled bounds |
| `DemoData.EthStepWithin` | src/services/demoDataService.ts:186-187 | a draw in [0, 1) moves a non-negative price by at most 2% either way |
| `DemoData.NextEthPrice` | src/services/demoDataService.ts:181-190 | the new ETH price is ≥ 1000, and for 0 ≤ r < 1 either exactly 1000 or within ±2% of the old price |
| `DemoData.ChainIndex` | src/services/demoDataService.ts:36-64 | the chains are visited in the order ethereum, polygon, arbitrum |
| `DemoData.Seeds` | src/services/demoDataService.ts:36-64 | every back-fill range starts above 0 and has a positive width, so every back-filled fee is positive |
| `DemoData.InitialPoint` | src/services/demoDataService.ts:33-64 | every back-filled sample has totalFee = base + priority, and for uniform draws each fee lies in its seed range |
| `DemoData.InitialPoints` | src/services/demoDataService.ts:33-65 | the first n back-filled samples of a chain, oldest first |
| `DemoData.InitialSeriesTiming` | src/services/demoDataService.ts:33-34 | 100 samples stamped now − 99×15000 … now, 15000 ms apart, the same timestamps for every chain |
| `DemoData.Backfill` | src/services/demoDataService.ts:33-65 | n loop iterations issue 3n `addGasPoint` calls |
| `DemoData.BackfilledSnoc` | src/services/demoDataService.ts:33-65 | one more back-filled sample is one more capped append |
| `DemoData.BackfillRound` | src/services/demoDataService.ts:36-64 | one back-fill iteration's store calls: one sample per chain, ethereum first; `RunBackfillRound` and `BackfillRoundEffect` state their effect |
| `DemoData.RunBackfillRound` | src/services/demoDataService.ts:36-64 | one iteration is three `addGasPoint` calls: ethereum, polygon, arbitrum |
| `DemoData.BackfillRoundEffect` | src/services/demoDataService.ts:36-64 | one iteration appends one sample to each chain's history and changes nothing else |
| `DemoData.BackfillEffect` | src/services/demoDataService.ts:33-65 | the back-fill appends each chain's samples with capped appends and changes nothing else |
| `DemoData.SnapshotPatch` | src/services/demoDataService.ts:72-100 | the partial that copies the newest sample's fees and total into the record and marks it connected; `InitialDataFromEmpty` states its use |
| `DemoData.SnapshotFor` | src/services/demoDataService.ts:67-100 | at most one `updateChainData` call, on that chain, made exactly when the history read before the loop is non-empty |
| `DemoData.InitialDataActions` | src/services/demoDataService.ts:28-101 | the back-fill followed by the three current-reading steps; `InitialDataFromEmpty` and `InitialDataTouchesChainsOnly` state its effect |
| `DemoData.BackfilledFromEmpty` | src/services/demoDataService.ts:33-65 | back-filling an empty history leaves exactly the 100 back-filled samples and the rest of the record unchanged |
| `DemoData.InitialDataFromEmpty` | src/services/demoDataService.ts:28-101 | from empty histories each chain ends with exactly its 100 samples and its other fields unchanged, because the current-reading branches read the pre-loop histories |
| `DemoData.InitialDataTouchesChainsOnly` | src/services/demoDataService.ts:28-101 | every store call of `generateInitialData` writes only chain records |
| `DemoData.ConnectActions` | src/services/demoDataService.ts:13-19 | the four `updateConnectionStatus(..., true)` calls and `updateUsdPrices(3200)`; `ConnectEffect` states their effect |
| `DemoData.ConnectEffect` | src/services/demoDataService.ts:13-19 | the start-up calls connect all four services and price ETH at 3200 as of now; nothing else changes |
| `DemoData.StartActions` | src/services/demoDataService.ts:10-26 | the connection calls followed by the back-fill from the connected state; `StartDemoEffect` states their effect |
| `DemoData.StartDemoEffect` | src/services/demoDataService.ts:10-26 | after start-up all four services are connected (count 4), ETH is 3200 as of now, and MATIC, mode, simulation and chart settings are unchanged |
| `DemoData.Timers.constructor` | src/services/demoDataService.ts:4 | the timer registry starts empty |
| `DemoData.Timers.SetInterval` | src/services/demoDataService.ts:105-112 | `setInterval` registers the timer under a handle not in use |
| `DemoData.Timers.ClearInterval` | src/services/demoDataService.ts:193 | `clearInterval` removes exactly that handle |
| `DemoData.DemoDataService.constructor` | src/services/demoDataService.ts:6-8 | construction runs the start-up: the store state follows the start-up actions and exactly two timers are registered |
| `DemoData.DemoDataService.StartDemo` | src/services/demoDataService.ts:10-26 | the store state is the start-up actions' run; the gas and price timers are registered and their handles pushed |
| `DemoData.DemoDataService.GenerateInitialData` | src/services/demoDataService.ts:28-101 | the store state is the run of the back-fill followed by the current-reading steps read from the pre-loop state |
| `DemoData.DemoDataService.AddInitialPoints` | src/services/demoDataService.ts:36-64 | one loop iteration appends that iteration's sample to each chain |
| `DemoData.DemoDataService.SetCurrentReading` | src/services/demoDataService.ts:67-100 | sets a chain's fees, gas price and connection from the newest pre-loop sample; does nothing when that history was empty |
| `DemoData.DemoDataService.StartPeriodicUpdates` | src/services/demoDataService.ts:103-115 | registers the 6 s gas timer, then the 10 s price timer, under fresh handles and appends both handles |
| `DemoData.DemoDataService.TickChain` | src/services/demoDataService.ts:121-137 | one chain's walk, `updateChainData` and `addGasPoint`, from the tick-start record |
| `DemoData.DemoDataService.UpdateGasPrices` | src/services/demoDataService.ts:117-179 | the store state is the run of the tick's actions |
| `DemoData.DemoDataService.UpdateEthPrice` | src/services/demoDataService.ts:181-190 | the store receives `updateUsdPrices(max(1000, p × (1 + (r − 0.5) × 0.04)))` |
| `DemoData.DemoDataService.Stop` | src/services/demoDataService.ts:192-195 | every registered handle is cleared and the list is empty; so a second `stop` changes nothing |

## Left out

- `src/services/web3Service.ts` and `src/hooks/useWeb3.ts` are not part of this model. They are
  websocket providers, contract event subscriptions, reconnect timers and a React effect: network
  I/O over libraries outside the repository. Their floating-point sqrtPriceX96 conversion is out
  too.
- JSX rendering is not modelled, and neither are the chart library calls (chart creation,
  `setData`, resize) or number formatting (`toFixed`, `Intl.NumberFormat`). The model stops at
  the numbers and the relative-time value that would be formatted.
- Timer cadence is not modelled: the 500 ms debounce before the panel recalculates, and the
  firing of the 6 s and 10 s intervals. Timers are an abstract registry of handles (`Timers`);
  the tick methods are called directly.
- `Math.random()` and `Date.now()` are parameters. The program calls `Date.now()` separately
  inside `updateChainData`, `updateUsdPrices`, `generateInitialData` and `updateGasPrices`; the
  model instead passes one `now` to all the store calls a demo method makes. Two contracts
  rely on that choice: `DemoData.TickedChain` (`lastUpdate` equals the new sample's
  timestamp) and `DemoData.StartDemoEffect` (`lastPriceUpdate` equals the back-fill's `now`).
  With separate clock reads these would differ by the milliseconds between the reads.
- zustand's subscribe and notify machinery is left out. `set` is an atomic replacement of the
  state.
- Arithmetic is exact `real`, not IEEE doubles.
- `GasChart.GetPriceChange`: a previous total fee of 0 gives an absent percentage, where
  JavaScript yields Infinity or NaN.
- `SimulationPanel.TransactionValueInput` takes what `parseFloat` read as input, with None for
  NaN. `SimulationPanel.GasLimitInput` does the same for `parseInt`. The parsers themselves
  are not modelled.
- `SimulationPanel.SimulationForm.HandleTransactionValueChange` does not model the React
  state setters' re-render. The typed text is stored in a field.
- `GasChart.SortByTime` is a stable insertion sort over the candle list. The order of
  `Object.entries` in the candle loop does not matter, because the result is sorted and the
  bucket times are distinct.
- Store results are modelled as an ordered list of (chain, cost) entries in the order of the
  `chains` object, not as a dictionary.
