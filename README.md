# Economic-Planning in Dafny

A verified model of the planning engine of Economic-Planning, a central-planning
simulator. The engine keeps a registry of materials (inventory, production
capacity, unit cost) and a catalogue of commodities (the materials they use and
at what rate, labour, demand, priority, workers). One planning pass does the
following:

1. It sorts the commodities by priority, and by demand within a priority.
2. For each commodity it assesses the shortage of every material it uses, charges positive shortages at unit cost, and draws the inventory down.
3. It adds the labour cost `laborRequired * demand` and checks labour availability.
4. It prices the commodity and shares its labour budget among its workers in proportion to hours worked.
5. It totals the costs.

All three variants in the repository are modelled:

- **src/main.cpp**, the definitive engine.
  - Value model: modules `Balance` (shortage and draw-down rules), `Ordering` (the comparator and the sort), `Wages` (the wage split) and `Planning` (what a pass computes, as functions of the registry and the catalogue).
  - Imperative model: module `Engine`. The registry (`MaterialRegistry`) and the catalogue (`CommodityCatalogue`) are classes updated in place. Each method is proved against the `Planning` functions.
  - Wages: `Wages.CalculateWages` works in place on an array of workers.
- **src/planner.cpp**, the earlier variant (module `Planner`).
  - Each commodity embeds copies of its material records.
  - The registry supplies the live inventory and is the only thing the pass changes.
  - It uses the same comparator as main.cpp (src/planner.cpp:56-60), modelled once in `Ordering`.
- **src/plan.cpp**, the first draft (module `Requirements`). `RequirementLedger` holds the two global maps `materialRequirements` and `shortage`. `Calculate` fills them in two loops.

The model follows the code's map semantics exactly:

- Subscripting a `std::map` with a missing key inserts a default value. The model tracks those insertions.
  - `Lookup`/`Touched`/`TouchedAll` do this for the material registry.
  - `RateOf`/`RateInserted`/`FilledRates` do it for usage rates.
  - `CommodityCatalogue.Entry` does it for the catalogue.
- A blank material has zero inventory, capacity and cost. A missing usage rate reads as 0.
- The throwing `usageRates.at` in calculatePrice (src/main.cpp:78) is modelled as an error result, `MissingUsageRate`.
- `Planning.PricedOnceRatesFilled` proves that the error never happens inside the pass. The material loop has already inserted every missing rate (src/main.cpp:167).

The code's subscript lookups insert zero-valued records for missing keys, and nothing stops the run over a missing material or rate. The model follows the code.

Quantities are `real`. Hours, priorities, `laborRequired` and planner.cpp's integer unit cost are `int`, converted to `real` where the code mixes them with `double`.

## Model

| member | source | states |
|---|---|---|
| Balance.Shortfall | src/main.cpp:65-71 | the shortage is never negative and is at least `required - available`; it is either 0 or exactly that gap, and it is 0 exactly when `required <= available` |
| Balance.Drawdown | src/main.cpp:177-178 | the inventory left is `max(0, inventory - required)`: never negative, 0 or the difference, and never more than the inventory when both inputs are non-negative |
| Balance.ActualUsage | src/main.cpp:177 | the draw is `min(inventory, required)`: no more than either, and equal to one of them |
| Ordering.PrecedesIsStrictWeakOrder | src/main.cpp:84-88 | compareCommodity (priority ascending, then demand descending) is irreflexive, asymmetric and transitive, and incomparability is transitive: the strict weak order the library sort demands |
| Ordering.InsertByPlan | src/main.cpp:159 | inserting into a sorted sequence keeps it sorted and adds exactly the one element |
| Ordering.SortByPlan | src/main.cpp:159 | the sorted sequence is a permutation of the input; priorities never decrease along it, and within a priority demand never increases |
| Ordering.EntryVector | src/main.cpp:158 | the vector built from a map holds every entry exactly once and nothing else |
| Ordering.SortEntries | src/main.cpp:158-159 | the sorted commodity vector holds every catalogue entry exactly once and is sorted by compareCommodity |
| Wages.WagePerHourCoversBudget | src/main.cpp:52-53 | when some hours were worked, the pay per hour times the total hours is the budget `laborRequired * demand` |
| Wages.PaidAtTotal | src/main.cpp:55-57 | the wages paid at a rate add up to the rate times the total hours |
| Wages.PaidWorkersKeepRoster | src/main.cpp:55-57 | allocation keeps the number of workers, their names and their hours |
| Wages.WagesSumToBudget | src/main.cpp:47-57 | when some hours were worked, the wages add up to `laborRequired * demand` |
| Wages.NoHoursNoWages | src/main.cpp:53 | with no hours worked, every wage and their total are 0 and nothing is divided by zero |
| Wages.WageIsShareOfBudget | src/main.cpp:52-56 | with hours on the books, each worker's allocated wage times the total hours equals the budget `laborRequired * demand` times that worker's hours: the wage is the hours-proportional share of the budget |
| Wages.PaidWorkersIdempotent | src/main.cpp:46-58 | allocating wages a second time changes nothing |
| Wages.CalculateWages | src/main.cpp:46-58 | the worker array afterwards is the allocation of the array as it was, computed in place |
| Planning.Touched | src/main.cpp:64 | subscripting the registry adds the name to its keys (a blank record when missing) and changes what no lookup reads |
| Planning.TouchedAll | src/main.cpp:77 | subscripting each listed name adds exactly those names and changes what no lookup reads |
| Planning.TouchedAllHeld | src/main.cpp:77 | subscripting names the registry already holds leaves it unchanged |
| Planning.RateInserted | src/main.cpp:167 | `usageRates[name]` adds the name with rate 0 when missing and changes what no rate lookup reads |
| Planning.FilledRates | src/main.cpp:166-167 | after the loop's rate lookups, the rate keys are the old ones plus the listed names, and every rate reads as before |
| Planning.FilledRatesIdempotent | src/main.cpp:166-167 | filling the rates again changes nothing |
| Planning.MaterialBalancePlanning | src/main.cpp:63-72 | the shortage against the registry's record (blank for an unknown name) is non-negative, 0 exactly when `demand * rate <= inventory + capacity`, and otherwise the gap |
| Planning.ChargeNonNegative | src/main.cpp:169-171 | a shortage charged at a non-negative unit cost costs a non-negative amount |
| Planning.Depleted | src/main.cpp:177-178 | drawing a requirement down changes only the inventory, which stays non-negative and becomes 0 or `inventory - demand * rate` |
| Planning.RateCostSumFailsAtFirstMissing | src/main.cpp:76-80 | the price loop succeeds exactly when every listed material has a usage rate; otherwise it fails naming the first listed material without one |
| Planning.RateCostSumErrSticks | src/main.cpp:76-80 | once the loop has failed on a prefix of the names, the whole loop fails with that error |
| Planning.RateCostStep | src/main.cpp:77-79 | one more iteration, after a prefix that succeeded: a name without a rate makes the sum fail with that name, and otherwise the sum grows by the rate times the unit cost read from the registry as the earlier lookups left it |
| Planning.PriceFailsAtFirstMissingRate | src/main.cpp:74-82 | calculatePrice fails exactly when a listed material has no usage rate, and it names the first such material |
| Planning.RateCostSumIsMaterialCost | src/main.cpp:76-80 | a successful sum equals the reference material cost, the sum of rate times unit cost over the listed names |
| Planning.PriceIsUnitPrice | src/main.cpp:74-82 | a computed price is the sum over the listed materials of rate times unit cost, plus `laborRequired`, not scaled by demand |
| Planning.MaterialCostReadsCostsAndRates | src/main.cpp:76-80 | the material cost depends only on the listed materials' unit costs and rates |
| Planning.UnitPriceReadsCostsOnly | src/main.cpp:74-82 | the price changes with none of demand, inventories, capacities, labour availability or workers |
| Planning.MaterialCostNonNegative | src/main.cpp:76-80 | with non-negative rates and unit costs, the material cost is non-negative |
| Planning.PriceAtLeastLabor | src/main.cpp:74-82 | with non-negative rates and unit costs, the price is at least `laborRequired` |
| Planning.PricedOnceRatesFilled | src/main.cpp:166-189 | once the material loop has inserted the missing rates, calculatePrice cannot fail, and its result is the unit price of the commodity as listed |
| Planning.MaterialsPass | src/main.cpp:166-179 | after one commodity's material loop, the registry still holds every name it held and now holds every listed name |
| Planning.MaterialsPassChangesInventoryOnly | src/main.cpp:166-179 | the material loop changes no record's name, capacity or unit cost: capacity is never consumed |
| Planning.MaterialsPassReadsRates | src/main.cpp:167 | the loop reads rates only through `usageRates[name]`, so rate maps that read alike give the same loop |
| Planning.MaterialsPassKeepsStockNonNegative | src/main.cpp:177-178 | an inventory that starts non-negative stays non-negative through the loop |
| Planning.MaterialsPassCostNonNegative | src/main.cpp:169-171 | with non-negative unit costs, the shortage cost of the loop is non-negative |
| Planning.MaterialsPassNeverAddsStock | src/main.cpp:177-178 | with non-negative demand, rates and starting inventories, no inventory rises during the loop (a negative inventory is raised to 0 by the capped draw) |
| Planning.MaterialsPassTouchesListedOnly | src/main.cpp:166-179 | a material the commodity does not list is neither inserted nor changed |
| Planning.UnheldMaterialChargedNothing | src/main.cpp:168-171 | a listed material the registry lacks shows the whole requirement as shortage but is charged at unit cost 0 |
| Planning.UnratedMaterialDrawsNothing | src/main.cpp:167-178 | a listed material with no rate is read at rate 0: no shortage, no charge and no draw |
| Planning.LaborCheckIsReportOnly | src/main.cpp:181-186 | the labour availability changes neither the commodity's cost, its price nor the registry |
| Planning.SettledIdempotent | src/main.cpp:163-192 | settling a commodity (filling its rates, paying its workers) a second time changes nothing |
| Planning.SettledStepsAlike | src/main.cpp:163-190 | a settled commodity takes the same step as the original: same registry afterwards and same report |
| Planning.StepReadsRatesOnly | src/main.cpp:163-190 | a commodity's step depends on its rates only through what they read, and not on its workers |
| Planning.CycleStock | src/main.cpp:162-196 | the registry after the pass still holds every name it held |
| Planning.CycleChangesInventoryOnly | src/main.cpp:162-196 | the pass changes no record's name, capacity or unit cost |
| Planning.CycleReports | src/main.cpp:162-196 | the pass reports once per commodity, in order |
| Planning.LaterCommoditiesSeeEarlierDraws | src/main.cpp:162-179 | the i-th report is the step of the i-th commodity on the registry as the commodities before it left it |
| Planning.CostCoversLabor | src/main.cpp:164-186 | with non-negative unit costs, a commodity's cost is at least `laborRequired * demand` |
| Planning.CycleKeepsCostsNonNegative | src/main.cpp:162-196 | unit costs that start non-negative stay non-negative through the pass |
| Planning.TotalCostCoversLaborBill | src/main.cpp:161-187 | with non-negative unit costs, the total cost is at least the sum of `laborRequired * demand` |
| Planning.CycleKeepsStockNonNegative | src/main.cpp:162-196 | inventories that start non-negative stay non-negative through the pass |
| Planning.CycleNeverAddsStock | src/main.cpp:162-196 | with non-negative demands, rates and starting inventories, no inventory rises during the pass |
| Planning.AllSettled | src/main.cpp:162-196 | after every entry of a catalogue order has been processed, every commodity in the catalogue is settled |
| Engine.MaterialRegistry.Entry | src/main.cpp:64 | the registry's subscript returns the held record, or inserts and returns the blank one |
| Engine.MaterialRegistry.MaterialBalancePlanning | src/main.cpp:63-72 | the shortage is the value model's, and the lookup's insertion is the only change to the registry |
| Engine.MaterialRegistry.Deplete | src/main.cpp:177-178 | only the named material's inventory changes, drawn down by `min(inventory, demand * rate)` |
| Engine.MaterialRegistry.Consume | src/main.cpp:168-178 | one iteration charges a positive shortage at the registry's unit cost and draws that material down, changing nothing else |
| Engine.MaterialRegistry.CalculatePrice | src/main.cpp:74-82 | the result is the value model's price; on success every listed name has been touched; on failure the error names a listed material without a rate, every earlier name has a rate (so it is the first missing one), and exactly the names up to and including it have been touched |
| Engine.MaterialRegistry.SumRateCosts | src/main.cpp:75-80 | the loop's sum is the value model's; on failure it stops at the first name without a rate, every earlier name having one, and the registry holds exactly the touches up to that name |
| Engine.MaterialRegistry.AddRateCost | src/main.cpp:77-79 | one iteration does the registry lookup, then the throwing rate lookup, then the addition |
| Engine.CommodityCatalogue.Entry | src/main.cpp:163 | the live catalogue entry, inserted as an empty commodity when missing |
| Engine.CommodityCatalogue.UsageRate | src/main.cpp:167 | the rate read is `RateOf`, and the only change is inserting a 0 rate into that commodity |
| Engine.CommodityCatalogue.PayWorkers | src/main.cpp:192 | the only change is that the commodity's workers are paid by the wage allocation |
| Engine.MaterialLoop | src/main.cpp:166-179 | the registry and the shortage cost are those of the value model's material loop, and the only catalogue change is the inserted rates |
| Engine.ProcessCommodity | src/main.cpp:164-190 | the registry and the report (cost, labour flag, price) are the value model's, and the price never fails |
| Engine.CommodityStep | src/main.cpp:163-192 | one iteration over the live entry gives the value model's step and settles that commodity in the catalogue |
| Engine.PlanningOrder | src/main.cpp:158-159 | the processing order lists every catalogue entry exactly once, sorted by compareCommodity |
| Engine.PlanningCycle | src/main.cpp:158-197 | the pass's registry, reports and total cost are the value model's over the sorted catalogue, and every commodity ends settled |
| Engine.RunPass | src/main.cpp:161-196 | the loop over the order gives the value model's registry, reports and total, and settles every listed commodity |
| Engine.PassEntry | src/main.cpp:162-196 | one entry of the order extends the registry, reports, total and settled set by that entry's step |
| Planner.Touched | src/planner.cpp:39 | subscripting the registry adds the name to its keys and changes what no lookup reads |
| Planner.MaterialShortage | src/planner.cpp:36-46 | the shortage is non-negative, 0 exactly when `demand * rate <= registry inventory + capacity of the copy`, and otherwise the gap |
| Planner.ShortageIgnoresStaleCopy | src/planner.cpp:38-39 | the inventory stored in the commodity's copy never affects the shortage; the live registry inventory does |
| Planner.MaterialCostNonNegative | src/planner.cpp:50-52 | with non-negative embedded rates and costs, the material cost is non-negative |
| Planner.PriceAtLeastLabor | src/planner.cpp:48-54 | with non-negative embedded rates and costs, the price is at least `laborRequired` |
| Planner.CalculatePrice | src/planner.cpp:48-54 | the price is the sum over embedded materials of rate times cost, plus `laborRequired`, reading neither the registry nor demand |
| Planner.Depleted | src/planner.cpp:129-130 | the registry record keeps everything but its inventory, which stays non-negative and becomes 0 or `inventory - demand * rate` |
| Planner.MaterialsPass | src/planner.cpp:120-131 | after one commodity's loop, the registry still holds every name it held and holds every embedded material's name |
| Planner.MaterialsPassChangesInventoryOnly | src/planner.cpp:120-131 | the loop changes no registry record's capacity, rate or cost |
| Planner.MaterialsPassTouchesListedOnly | src/planner.cpp:120-131 | a name that is not embedded in the commodity is neither inserted nor changed |
| Planner.MaterialsPassKeepsStockNonNegative | src/planner.cpp:129-130 | an inventory that starts non-negative stays non-negative |
| Planner.MaterialsPassNeverAddsStock | src/planner.cpp:129-130 | with non-negative demand, copy rates and starting inventories, no inventory rises |
| Planner.MaterialsPassCostNonNegative | src/planner.cpp:122-125 | with non-negative copy costs, the shortage cost is non-negative |
| Planner.CostCoversLabor | src/planner.cpp:118-140 | with non-negative unit costs on the commodity's material copies, the commodity's cost is at least its labour cost `laborRequired * demand`: shortage charges only add to it |
| Planner.LaborCheckIsReportOnly | src/planner.cpp:134-140 | labour availability changes neither the costs, the price nor the registry |
| Planner.CycleStock | src/planner.cpp:116-144 | the registry after the pass still holds every name it held |
| Planner.CycleReports | src/planner.cpp:116-144 | the pass reports once per commodity, in order |
| Planner.LaterCommoditiesSeeEarlierDraws | src/planner.cpp:116-131 | the i-th report is the step of the i-th commodity on the registry as the commodities before it left it |
| Planner.CycleChangesInventoryOnly | src/planner.cpp:116-144 | the pass changes no registry record but its inventory |
| Planner.CycleKeepsStockNonNegative | src/planner.cpp:116-144 | inventories that start non-negative stay non-negative through the pass |
| Planner.SampleOrderPutsBreadFirst | src/planner.cpp:90-113 | with the sample catalogue, every valid processing order is Bread (priority 1) then Chair (priority 5) |
| Planner.MaterialRegistry.Entry | src/planner.cpp:39 | the registry's subscript returns the held record, or inserts and returns the blank one |
| Planner.MaterialRegistry.MaterialBalancePlanning | src/planner.cpp:36-46 | the copy's inventory is replaced by the registry's when they differ; the shortage is the value model's, and the lookup's insertion is the only change |
| Planner.MaterialRegistry.Consume | src/planner.cpp:121-130 | one iteration charges a positive shortage at the copy's cost and draws the registry record down at the copy's rate, changing nothing else |
| Planner.MaterialRegistry.Deplete | src/planner.cpp:129-130 | only the named record's inventory changes, drawn down by `min(registry inventory, demand * rate)` |
| Planner.MaterialLoop | src/planner.cpp:120-131 | the registry and the shortage cost are those of the value model's loop |
| Planner.ProcessCommodity | src/planner.cpp:117-143 | the registry and the report are the value model's; the commodity is a value and is not changed |
| Planner.PlanningCycle | src/planner.cpp:112-145 | the order is the sorted catalogue; registry, reports and total cost are the value model's; only the registry is modified |
| Requirements.Recorded | src/plan.cpp:12-15 | after the first loop, every material of the call holds `demand * rate`, and every earlier entry is kept |
| Requirements.ShortagesRecorded | src/plan.cpp:17-22 | a shortage entry is written exactly for each under-supplied name, holding the positive `requirement - supply`; all other entries are kept |
| Requirements.ShortagesStayWithinRequirements | src/plan.cpp:14-20 | if every shortage key is a requirement key before a call, it still is after the call |
| Requirements.FreshLedgersNameUndersupplied | src/plan.cpp:17-29 | from empty ledgers, the shortage keys are exactly the under-supplied materials of the call, and the "enough supply" branch is taken exactly when there are none |
| Requirements.StaleShortageOutlivesRecovery | src/plan.cpp:6-22 | a shortage recorded by an earlier call persists through a call in which that material is amply supplied |
| Requirements.RequirementLedger.constructor | src/plan.cpp:6-7 | the two ledgers start empty |
| Requirements.RequirementLedger.Calculate | src/plan.cpp:9-32 | both ledgers are updated as the value model says, and "enough supply" is reported exactly when the shortage ledger is empty |
| Requirements.RequirementLedger.RecordRequirements | src/plan.cpp:12-15 | the first loop records every requirement of the call and leaves the shortage ledger alone |
| Requirements.RequirementLedger.RecordShortages | src/plan.cpp:17-22 | the second loop checks every requirement entry, stale ones included, and records the shortages |

## Left out

- Loading the catalogues from JSON files and exiting on a missing file (src/main.cpp:90-149): I/O.
- All printing and the redirection of output to `out.txt`. The report records hold the per-commodity figures: cost, labour-shortage flag and price, plus planner.cpp's total before labour. The total over all commodities is `TotalCost`. The branch condition of plan.cpp's messages is `Calculate`'s result.
- The per-material shortage and its cost to fix (src/main.cpp:170-172, src/planner.cpp:123-125) are not kept in any record. The model computes each one (`MaterialBalancePlanning`, `MaterialShortage`, `Charge`) and adds it into the commodity's cost, but no report lists them.
- The per-worker wages printed at src/main.cpp:194 are not in the reports. They are kept only in the settled catalogue, as `PaidWorkers` of the commodity's workers.
- Floating point. Quantities are exact reals, so IEEE rounding is not modelled. main.cpp's `float` unit cost and planner.cpp's `int` unit cost are converted exactly.
- Integer overflow of the hour total `totalHoursWorked` (src/main.cpp:36-38): integers are unbounded.
- The order in which `std::sort` places commodities that tie on priority and demand. Only sortedness and permutation are stated.
- The order in which a `std::map` is iterated. The entry vector and plan.cpp's loops take the keys in any order, and everything proved holds for every order.
- The zero entries that plan.cpp's lookups insert into its by-value `inventory` and `productionCapacity` copies. Those copies are discarded at return; the model reads a missing key as 0.
- The hard-coded sample data of planner.cpp and plan.cpp. The planner's two commodities appear only as constants for `Planner.SampleOrderPutsBreadFirst`.
- The `#define` priority names: priorities are plain integers.
