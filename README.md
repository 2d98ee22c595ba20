# Battery-swap dashboard: the virtual-station what-if engine

This project models the client side of a battery-swap network dashboard, written in
React. The model covers:

- the **virtual-station engine**. It places a proposed station 0.8–1.8 km from a
  selected station. It estimates what that station would do to the KPIs: lost swaps
  absorbed, offloaded swaps, availability, wait time and success rate. It recommends
  an ownership model: POPO (partner owned, partner operated) where at least three
  stations lie within 2 km, COCO (company owned, company operated) otherwise. It also
  writes the insight text that summarises the three.
- **the page's selectors**: per-station daily KPIs from a simulation timeline, the
  station the side panels show, the map's stations, the KPI pair the cards compare,
  and the banner's recommendation.
- **the page state** that the virtual-station and pin-location handlers update. This
  is a class whose methods keep one invariant: a virtual station is shown exactly
  when one exists, an estimate exists only for an existing virtual station, and pin
  results exist only in pin mode.
- **the hourly charts**. Timeline records are grouped into an hour-keyed dictionary
  by a loop, then turned into rows sorted by hour. The baseline and scenario rows are
  paired by position, and the swap improvement is computed.
- **the KPI cards**. Each card has a value chain: the scenario over the baseline, then
  the virtual estimate over both. It also has the deltas and their colours, the arrow
  of the virtual badge, and a capped progress bar.

The model is organised as follows:

- `js_values.dfy` holds the JavaScript value rules the code relies on. A number may
  be `undefined`, `null` or finite. `||` replaces falsy values, 0 included; `??`
  replaces nullish values only. `Math.round(x)` is `floor(x + 0.5)`.
- `records.dfy` holds the station and KPI records.
- `virtual_station_simulation.dfy`, `app.dfy`, `chart_panel.dfy` and `kpi_stats.dfy`
  follow the four source files.

`Math.random()` draws, the haversine distance, the trigonometric offset and
number-to-string formatting are parameters of the model.

## Model

| member | source | states |
|---|---|---|
| VirtualStationSimulation.GenerateVirtualStationPosition | frontend/ReactPart/src/utils/virtualStationSimulation.js:11-37 | no station when none is selected or its latitude or longitude is falsy (0 included); otherwise id `VIRTUAL_STATION_001`, virtual, capacity 15, parent = selected id, distance in [0.8, 1.8] km kept to two decimals and within 0.005 of the drawn distance 0.8 + draw that also places the station, position = selected position + offset at that drawn distance |
| VirtualStationSimulation.ToFixed2 | frontend/ReactPart/src/utils/virtualStationSimulation.js:35 | the stored distance has two decimals and lies within 0.005 of the drawn one |
| VirtualStationSimulation.EffectiveCapacity | frontend/ReactPart/src/utils/virtualStationSimulation.js:61 | `capacity \|\| 15`: a zero capacity becomes 15, any other is kept, so the capacity is positive |
| VirtualStationSimulation.CurrentWaitTime | frontend/ReactPart/src/utils/virtualStationSimulation.js:57 | a missing or zero wait time reads as 15 minutes, any other value as itself |
| VirtualStationSimulation.MaxDailyCapacity | frontend/ReactPart/src/utils/virtualStationSimulation.js:62-63 | the daily throughput is never negative |
| VirtualStationSimulation.AbsorptionFactor | frontend/ReactPart/src/utils/virtualStationSimulation.js:68 | the absorbed share lies in [0.80, 0.95) |
| VirtualStationSimulation.AbsorbedDemand | frontend/ReactPart/src/utils/virtualStationSimulation.js:71-72 | the rounded absorbed share capped by throughput; between 0 and the throughput and at most round(95% of the lost swaps) |
| VirtualStationSimulation.OffloadFactor | frontend/ReactPart/src/utils/virtualStationSimulation.js:76 | the offloaded share lies in [0.15, 0.25) |
| VirtualStationSimulation.OffloadGrowth | frontend/ReactPart/src/utils/virtualStationSimulation.js:76-85 | 30% of the rounded offloaded swaps, rounded: never negative, and within 0.65 of 0.3 · swaps · offload share |
| VirtualStationSimulation.OffloadShare | frontend/ReactPart/src/utils/virtualStationSimulation.js:76-85 | with a 15–25% offload share the growth lies in (4.5% of the swaps − 0.65, 7.5% of the swaps + 0.65] |
| VirtualStationSimulation.AvailabilityIncrement | frontend/ReactPart/src/utils/virtualStationSimulation.js:96-97 | the availability gain lies in [3, 3 + 3·(1 + capacity/20)) |
| VirtualStationSimulation.WaitReductionFactor | frontend/ReactPart/src/utils/virtualStationSimulation.js:102-105 | the wait-time cut is 40% plus 40% of the absorbed share of the lost swaps, and exactly 40% when nothing was lost; so it is at least 40%, and at most 80% when no more than the lost swaps is absorbed |
| VirtualStationSimulation.WaitReductionMonotonic | frontend/ReactPart/src/utils/virtualStationSimulation.js:102-105 | absorbing more of the lost swaps never gives a smaller cut |
| VirtualStationSimulation.WaitShorterWithMoreAbsorbed | frontend/ReactPart/src/utils/virtualStationSimulation.js:100-106 | absorbing more of the lost swaps never leaves a longer wait |
| VirtualStationSimulation.NewWaitTime | frontend/ReactPart/src/utils/virtualStationSimulation.js:106 | the new wait time is at least 3 minutes |
| VirtualStationSimulation.NewWaitTimeUpper | frontend/ReactPart/src/utils/virtualStationSimulation.js:105-106 | a cut of at least 40% leaves at most max(3, 60%) of the wait |
| VirtualStationSimulation.NewWaitTimeLower | frontend/ReactPart/src/utils/virtualStationSimulation.js:105-106 | a cut of at most 80% leaves at least 20% of the wait |
| VirtualStationSimulation.CalculateVirtualStationImpact | frontend/ReactPart/src/utils/virtualStationSimulation.js:47-50 | no estimate exactly when the KPIs or the virtual station are missing |
| VirtualStationSimulation.ImpactAbsorption | frontend/ReactPart/src/utils/virtualStationSimulation.js:59-72 | capacity `\|\| 15`, throughput round(3.5·capacity), absorption factor in [0.80, 0.95), absorbed demand within [0, throughput] and at most round(95% of lost) |
| VirtualStationSimulation.ImpactLostSwaps | frontend/ReactPart/src/utils/virtualStationSimulation.js:80-81 | new lost swaps are max(0, old − absorbed), so they lie between 0 and the old count; the reported reduction is min(old, absorbed); full absorption leaves 0 lost |
| VirtualStationSimulation.ImpactTotalSwaps | frontend/ReactPart/src/utils/virtualStationSimulation.js:76-86 | new total = old total + increase; the increase is the absorbed demand plus the offloading growth of the drawn share, so it exceeds the absorbed demand by between 4.5% of the swaps − 0.65 and 7.5% of the swaps + 0.65 |
| VirtualStationSimulation.ImpactAvailability | frontend/ReactPart/src/utils/virtualStationSimulation.js:94-98 | availability rises by at least 3 and by less than 3 + 3·(1 + capacity/20) |
| VirtualStationSimulation.ImpactWaitTime | frontend/ReactPart/src/utils/virtualStationSimulation.js:100-113 | the new wait is the old one cut by the factor that the absorbed share of the lost swaps gives; it is at least 3 minutes and at most max(3, 60% of the old one); it is at least 20% of the old one when absorption does not exceed the loss; it is reported to one decimal within 0.05 |
| VirtualStationSimulation.NewSuccessRate | frontend/ReactPart/src/utils/virtualStationSimulation.js:88-92 | with earlier demand, the rate times the new attempts is 100 times the new swaps (the served share in percent); without it, the current rate |
| VirtualStationSimulation.ImpactSuccessRate | frontend/ReactPart/src/utils/virtualStationSimulation.js:88-111 | the rate is capped at 100. With no demand it is the old rate; otherwise it is the new served share, never below the old share, and 100 once nothing is lost. The improvement is measured before the cap |
| VirtualStationSimulation.NewSuccessRateBounds | frontend/ReactPart/src/utils/virtualStationSimulation.js:89-92 | the served share of the new counts is at most 100, at least the old share, and 100 with no lost swaps |
| VirtualStationSimulation.IsNearby | frontend/ReactPart/src/utils/virtualStationSimulation.js:159-166 | a station is a neighbour exactly when its latitude and longitude are numbers other than 0 and its distance from the virtual station is at most 2 km |
| VirtualStationSimulation.NearbyStations | frontend/ReactPart/src/utils/virtualStationSimulation.js:158-166 | exactly the roster stations with a truthy position within 2 km, each as many times as it occurs in the roster |
| VirtualStationSimulation.CalculateOwnershipModel | frontend/ReactPart/src/utils/virtualStationSimulation.js:148-215 | without a station or roster: COCO, the no-data reason, default benefits, no financials. Otherwise POPO iff at least 3 neighbours; the reason is dense, greenfield (0) or emerging, and the benefits and financials are those of the model |
| VirtualStationSimulation.OwnershipMonotonic | frontend/ReactPart/src/utils/virtualStationSimulation.js:168-170 | adding a station to the roster never turns POPO into COCO |
| VirtualStationSimulation.ResultLines | frontend/ReactPart/src/utils/virtualStationSimulation.js:229-244 | nine lines, the second and the last blank |
| VirtualStationSimulation.ReasonText | frontend/ReactPart/src/utils/virtualStationSimulation.js:176-194 | the fixed no-data and greenfield sentences; the dense sentence after the count; "Only " and the count before the emerging sentence |
| VirtualStationSimulation.OwnershipLines | frontend/ReactPart/src/utils/virtualStationSimulation.js:246-252 | four lines, the last blank |
| VirtualStationSimulation.RecommendationLine | frontend/ReactPart/src/utils/virtualStationSimulation.js:254 | the line opens with the recommendation text, names the distance to two decimals and then the parent station, and closes with the deployment sentence |
| VirtualStationSimulation.InsightLines | frontend/ReactPart/src/utils/virtualStationSimulation.js:234-254 | 14 lines with ownership advice, 10 without: the results, then the ownership block, then the recommendation line last |
| VirtualStationSimulation.InsightText | frontend/ReactPart/src/utils/virtualStationSimulation.js:224-257 | no text exactly when the estimate or the station is missing; otherwise the insight lines joined with newlines, opening with the headline |
| VirtualStationSimulation.GenerateVirtualStationInsight | frontend/ReactPart/src/utils/virtualStationSimulation.js:224-257 | the lines are pushed one by one and the result is the joined insight text |
| App.SumBy | frontend/ReactPart/src/App.jsx:265-267 | the reduce sum: 0 for no records, the single term for one record |
| App.SumByAppend | frontend/ReactPart/src/App.jsx:265-267 | the sum over two runs of records is the sum of their sums |
| App.SumByNonNegative | frontend/ReactPart/src/App.jsx:265-266 | a sum of non-negative counters is non-negative |
| App.StationRecords | frontend/ReactPart/src/App.jsx:258 | exactly the timeline records of the station, each as many times as it occurs in the timeline |
| App.IterationCount | frontend/ReactPart/src/App.jsx:262 | the number of distinct iterations, at least 1 |
| App.Average | frontend/ReactPart/src/App.jsx:270-274 | the mean times the count gives back the total; non-negative totals give non-negative means |
| App.SuccessRate | frontend/ReactPart/src/App.jsx:276 | with swaps served, the rate times the attempts is 100 times the swaps (the served share in percent); with none served, 100 exactly when nothing was lost and 0 exactly when something was |
| App.WaitTime | frontend/ReactPart/src/App.jsx:278-281 | with attempts, (wait − 5) times the attempts is 25 times the lost swaps (5 minutes plus 25 per unit of loss rate); with no attempts, 5 minutes |
| App.StationKpis | frontend/ReactPart/src/App.jsx:256-290 | no KPIs without a timeline, a station id or a record of it. Otherwise swaps and lost are per-day averages over distinct iterations, availability is the mean over records, and the success rate and the wait (to one decimal) come from the daily figures |
| App.SuccessRateBounds | frontend/ReactPart/src/App.jsx:276 | the success rate is in [0, 100], and 100 when swaps are served and none lost |
| App.WaitFromSuccess | frontend/ReactPart/src/App.jsx:276-281 | the wait estimate is 30 − success rate / 4 |
| App.WaitBounds | frontend/ReactPart/src/App.jsx:279-289 | the wait is within 5–30 minutes, before and after rounding to one decimal |
| App.StationKpisBounds | frontend/ReactPart/src/App.jsx:256-290 | per-station KPIs have non-negative counts, a success rate in [0, 100] and a wait in [5, 30]; before rounding the wait is 30 − success rate / 4 |
| App.StationKpisExample | frontend/ReactPart/src/App.jsx:256-290 | two days with 10/2 and 14/2 swaps/lost give 12 swaps and 2 lost per day, availability 6, success 12/14·100 and wait 8.6 |
| JsValues.FindAfterFilter | frontend/ReactPart/src/App.jsx:69-70 | `s.filter(p).find(q)` is the first element of `s` satisfying both, and none exactly when no element does |
| App.SelectedStationData | frontend/ReactPart/src/App.jsx:66-86 | nothing without a selection; the first noon record of the station in the baseline timeline when there is one; else the first roster entry of the station with its initial stock as availability; else nothing |
| App.WithInitialStock | frontend/ReactPart/src/App.jsx:230-233 | the available batteries become the initial stock and every other field is kept |
| App.GetMapStations | frontend/ReactPart/src/App.jsx:224-234 | the baseline's noon records once a baseline exists, in timeline order as `filter` keeps them, each as often as in the timeline; else the roster, entry by entry, with initial stock as availability |
| App.DisplayedKpis | frontend/ReactPart/src/App.jsx:293-319 | station label iff a station is selected and has KPIs in some run; then the scenario falls back to the baseline. Otherwise the network KPIs |
| App.VirtualStationInsight | frontend/ReactPart/src/App.jsx:171-176 | an insight exactly when a virtual station is active with an estimate, and then the insight text |
| App.GetRecommendationContent | frontend/ReactPart/src/App.jsx:237-251 | the virtual insight wins over the simulation's recommendation; no banner without either |
| App.CurrentKpis | frontend/ReactPart/src/App.jsx:147-150 | the station's scenario, else baseline, else network scenario, else network baseline KPIs; none exactly when all are missing; counts are non-negative |
| App.AddedVirtualStation | frontend/ReactPart/src/App.jsx:135-160 | without a placed station nothing changes. Otherwise the station is shown, the ownership is that of the roster, and the estimate is that of the current KPIs or the earlier one if there are none. Coherence is kept |
| App.AppState.constructor | frontend/ReactPart/src/App.jsx:21-39 | every field at its initial value, and the invariant holds |
| App.AppState.Recommendation | frontend/ReactPart/src/App.jsx:237-253 | under the page invariant, the banner is the virtual insight exactly when a virtual station is active with an estimate, and then a virtual station exists |
| App.AppState.Select | frontend/ReactPart/src/App.jsx:23 | only the selection changes |
| App.AppState.ReceiveStations | frontend/ReactPart/src/App.jsx:56 | only the roster changes |
| App.AppState.ReceiveSimulation | frontend/ReactPart/src/App.jsx:111 | only the simulation data changes |
| App.AppState.AddVirtualStation | frontend/ReactPart/src/App.jsx:135-160 | the virtual-station fields become `AddedVirtualStation` of the old ones; nothing else changes; the invariant is kept |
| App.AppState.RemoveVirtualStation | frontend/ReactPart/src/App.jsx:163-168 | station, active flag, estimate and ownership are cleared; nothing else changes |
| App.AppState.SimulateStart | frontend/ReactPart/src/App.jsx:88-95 | loading, no error, virtual station and estimate cleared, ownership advice kept |
| App.AppState.TogglePinMode | frontend/ReactPart/src/App.jsx:179-187 | pin mode flips; leaving it clears the pinned location, analysis and recommended location |
| App.AppState.MapClick | frontend/ReactPart/src/App.jsx:190-195 | in pin mode the point is pinned and earlier results cleared; outside it nothing changes |
| App.AppState.ClearPinAnalysis | frontend/ReactPart/src/App.jsx:215-220 | pin results cleared and pin mode left |
| ChartPanel.Bucket | frontend/ReactPart/src/components/ChartPanel.jsx:30-36 | the records counted for an hour, each as many times as it occurs in the input: those of that hour from the selected station, or from any station when none is selected |
| ChartPanel.Add | frontend/ReactPart/src/components/ChartPanel.jsx:31-36 | one record adds its swaps, lost swaps and batteries (a missing counter as 0) to the running sums and 1 to the count |
| ChartPanel.AddCommutes | frontend/ReactPart/src/components/ChartPanel.jsx:31-36 | the order in which two records are added does not change the entry |
| ChartPanel.Total | frontend/ReactPart/src/components/ChartPanel.jsx:32-35 | the entry's count is the number of records added |
| ChartPanel.Recorded | frontend/ReactPart/src/components/ChartPanel.jsx:19-36 | one record: its hour gets an entry, and the record is added to it only when it counts; other entries are unchanged |
| ChartPanel.GroupedStep | frontend/ReactPart/src/components/ChartPanel.jsx:19-37 | one loop iteration keeps the dictionary holding one entry per hour seen, each summing its counted records |
| ChartPanel.Rows | frontend/ReactPart/src/components/ChartPanel.jsx:39-45 | one row per dictionary entry, listed in first-seen order of the hours, each the row of its entry |
| ChartPanel.RowOf | frontend/ReactPart/src/components/ChartPanel.jsx:40-45 | an entry with records becomes its swaps and lost swaps rounded to the nearest integer and its mean availability rounded likewise; an empty entry becomes zeros |
| ChartPanel.AscendingUnique | frontend/ReactPart/src/components/ChartPanel.jsx:39-46 | two strictly hour-ascending row lists of the same length with the same rows are equal, so the sorted rows do not depend on the order the dictionary lists its entries in |
| ChartPanel.GroupedRows | frontend/ReactPart/src/components/ChartPanel.jsx:39-45 | one row per hour seen, each with rounded sums and rounded mean availability, and zeros when nothing counted |
| ChartPanel.InsertByHour | frontend/ReactPart/src/components/ChartPanel.jsx:46 | inserting into rows in ascending hour order keeps them ascending and keeps every row |
| ChartPanel.SortByHour | frontend/ReactPart/src/components/ChartPanel.jsx:46 | the rows in strictly ascending hour order, the same rows |
| ChartPanel.ProcessDataByHour | frontend/ReactPart/src/components/ChartPanel.jsx:17-47 | rows in strictly ascending hour order, one per distinct hour of the input; each row is the rounded sum / rounded mean of its hour's counted records |
| ChartPanel.UnselectedCountsAll | frontend/ReactPart/src/components/ChartPanel.jsx:31 | with no station selected every record of the hour counts |
| ChartPanel.OtherStationIgnored | frontend/ReactPart/src/components/ChartPanel.jsx:31 | with a station selected a record of another station changes no row |
| ChartPanel.ZeroRow | frontend/ReactPart/src/components/ChartPanel.jsx:42-44 | an hour seen only in uncounted records has a row of zeros |
| ChartPanel.RowNonNegative | frontend/ReactPart/src/components/ChartPanel.jsx:42-43 | rows of non-negative counters show non-negative swaps and lost swaps |
| ChartPanel.ComparisonData | frontend/ReactPart/src/components/ChartPanel.jsx:53-61 | one point per baseline row; scenario fields from the row at the same index, 0 when the scenario is shorter |
| ChartPanel.TotalSwaps | frontend/ReactPart/src/components/ChartPanel.jsx:64-65 | a total of rows with non-negative swap counts is non-negative |
| ChartPanel.TotalSwapsDominated | frontend/ReactPart/src/components/ChartPanel.jsx:64-65 | rows of the same length with at least as many swaps at each position add up to at least as many |
| ChartPanel.SwapsImprovement | frontend/ReactPart/src/components/ChartPanel.jsx:64-66 | a scenario with as many rows, each serving at least the baseline's swaps, improves by at least 0; an unchanged scenario by exactly 0 |
| ChartPanel.ComparisonGainPrefix | frontend/ReactPart/src/components/ChartPanel.jsx:53-66 | the chart's summed gain counts scenario rows only up to the baseline's length |
| ChartPanel.ImprovementMatchesChart | frontend/ReactPart/src/components/ChartPanel.jsx:64-66 | with no more scenario rows than baseline rows, the swap improvement is the chart's summed gain |
| KpiStats.BaseValue | frontend/ReactPart/src/components/KPIStats.jsx:45 | the scenario value unless it is nullish, else the baseline value |
| KpiStats.GetEffectiveValue | frontend/ReactPart/src/components/KPIStats.jsx:40-48 | while a virtual station is active with an estimate, the estimate; otherwise the scenario value unless nullish, else the baseline value. Nullish exactly when all the sources consulted are nullish |
| KpiStats.GetDelta | frontend/ReactPart/src/components/KPIStats.jsx:51-54 | null iff either value is falsy (0 included), else scenario − baseline |
| KpiStats.DeltaAntisymmetric | frontend/ReactPart/src/components/KPIStats.jsx:51-54 | exchanging baseline and scenario negates the delta |
| KpiStats.GetVirtualDelta | frontend/ReactPart/src/components/KPIStats.jsx:57-73 | null iff inactive, no estimate or the value shown is undefined (null counts as 0); else estimate − value, good by direction, arrow and signed one-decimal text |
| KpiStats.ArrowFollowsChange | frontend/ReactPart/src/components/KPIStats.jsx:65-71 | the badge arrow points the way the value moved for either direction; no change is never good |
| KpiStats.FormatDelta | frontend/ReactPart/src/components/KPIStats.jsx:75-85 | null for a null delta; good = a fall for lost swaps and a rise otherwise; green iff good, grey iff 0, red iff neither |
| KpiStats.WaitTimeDeltaColouredAsRising | frontend/ReactPart/src/components/KPIStats.jsx:75-84 | a shorter wait is good for the badge yet coloured red in the card's delta |
| KpiStats.MaxValue | frontend/ReactPart/src/components/KPIStats.jsx:115-120 | the bar scales are positive |
| KpiStats.Percentage | frontend/ReactPart/src/components/KPIStats.jsx:121 | at most 100; 100 iff the value reaches the scale; otherwise value/scale·100; non-negative for non-negative values |
| KpiStats.PercentageMonotonic | frontend/ReactPart/src/components/KPIStats.jsx:121 | a larger value never shortens the bar |
| KpiStats.CardOf | frontend/ReactPart/src/components/KPIStats.jsx:106-121 | a card shows its metric, the effective value, the formatted scenario delta, the virtual-station badge and the bar of the effective value, at most 100 |
| KpiStats.Render | frontend/ReactPart/src/components/KPIStats.jsx:87-121 | skeletons exactly when both KPI sets are absent; otherwise four cards in metric order, each the `CardOf` its metric, showing the effective value with a bar of at most 100 |
| KpiStats.ActiveCardsShowEstimate | frontend/ReactPart/src/components/KPIStats.jsx:106-121 | with a virtual station active every card shows a number and has a badge unless the value shown without it is undefined |

## Left out

- Haversine distance and the latitude/longitude offset (virtualStationSimulation.js:25-26, 131-140) are parameters: transcendental floating point is not modelled.
- `Math.random()` is not modelled; its draws are parameters in [0, 1).
- Number-to-string conversion (template literals, `toFixed`) is an abstract formatter parameter, so digits and rounding inside text are not modelled.
- NaN and infinities are not modelled. The chart requires every record to have an hour and no `undefined` counter, for which JavaScript would produce NaN sums or an `undefined` key.
- Swap counters are taken to be non-negative, as the simulation service delivers them. Without this the estimate's success-rate denominator could vanish.
- ChartPanel.Rows: lists the entries in the order their hours were first seen, whereas `Object.values` lists the integer hour keys in ascending order. The sort that follows hides the difference: `ChartPanel.AscendingUnique` shows that both orders end in the same rows.
- The hour label `${hour}:00` is kept as the integer hour, which the sort's `parseInt` reads back.
- JavaScript's sort is modelled as an insertion sort. With distinct hours the sorted result is unique, so it agrees with any correct sort.
- `calculateVirtualStationImpact`'s `selectedStation` parameter is unused by the source and is omitted.
- The realtime branch of `getEffectiveValue` (KPIStats.jsx:42-44) is dead, because no metric sets `isRealtime`. It is left out.
- Asynchronous completions are left out: the results of `loadData`, `runSimulation` and `analyzePinnedLocation`. The model has only the state they would store, so a late analysis arriving after pin mode was left is not modelled, and `recommendedLocation` is only ever cleared.
- React hooks, memoisation, JSX layout and styling, charts' rendering, and the empty-baseline placeholder of the chart panel are not modelled.
- The emoji and the rupee sign of the insight and financial texts are written as the characters they denote; the source file shows them mis-decoded.
- The ownership record's `fullName` is derived from the model (`OwnershipModel.FullName`) instead of being stored.
- VirtualStationSimulation.InsightLines: the model does not prove that no line contains a newline, so the joined text is not shown to split back into the same lines.
- VirtualStationSimulation.CalculateVirtualStationImpact: its own contract states only when an estimate exists; the bounds are the separate `Impact…` lemmas.

Behaviours of the source that the model keeps as written:

- Adding a virtual station without any current KPIs keeps the earlier estimate.
- Starting a simulation clears the virtual station but keeps its ownership advice.
- The baseline fallback in `displayedKpis` recomputes the same value.
- `formatDelta` treats only lost swaps as falling-is-better, although the wait-time metric is declared falling-is-better; see `KpiStats.WaitTimeDeltaColouredAsRising`.
- The comparison chart pairs rows by position, not by hour.
