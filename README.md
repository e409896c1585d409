# Inventory costing: FIFO, LIFO and weighted average

A Dafny model of the calculation core of the inventory-methods tool
(`inventory-methods-tool/script.js`, class `InventoryCalculator`). The tool reads
purchase rows and sale rows. It keeps the well-formed ones and orders them by
date. It then costs the sales three ways:

- FIFO charges each sale from the oldest lots first.
- LIFO charges each sale from the newest lots first.
- The weighted average charges every sale at total cost over total quantity.

It then reports cost of goods sold (COGS), ending inventory, gross profit and
margin for each method. It also reports the pairwise differences between the
methods, with their effect at a 25% tax rate.

Modules, one file each:

- `sums.dfy` (`Sums`): running totals as the engines accumulate them (`Sum`, `Min`, `Max`).
- `records.dfy` (`Records`): the entered rows, the purchase lot (a `class Lot` whose
  quantity the engines decrement in place), sales, breakdown entries, per-sale records.
- `stable_sort.dfy` (`StableSort`): `Array.prototype.sort` with a date comparator,
  modelled as a stable insertion sort with its properties.
- `normalize.dfy` (`Normalize`): `collectData`'s row filter, derived totals and ordering.
- `lot_queue.dfy` (`LotQueue`): the FIFO and LIFO engines as specification functions.
  The working copy `[...this.purchases]` is a window `lots[lo..hi]` of the purchase list:
  `shift` raises `lo` and `pop` lowers `hi`. One pass of the inner `while` is `TakeOne`,
  one sale is `Serve`, and the outer `for` is `RunSales`.
- `average.dfy` (`Average`): the weighted-average engine as a specification function.
- `metrics.dfy` (`Metrics`): profit margin, impact differences with tax, sign colouring.
- `calculator.dfy` (`Calculator`): the `InventoryCalculator` object. Its methods
  (`CollectData`, `CalculateFIFO`, `CalculateLIFO`, `CalculateWeightedAverage`,
  `CalculateAndDisplay`) run loops over the lot objects. Each one is proved against
  the specification functions above. The module also holds lemmas about the whole calculation.
- `sample.dfy` (`Sample`): the data `loadSampleData` enters and the figures the tool
  reports for it.

Money and quantities are exact reals. Dates are integers such as `20240115`.
A field that is empty or does not parse is `None`.

`calculateAndDisplay` runs FIFO, then LIFO, then the weighted average, all on the
same lot objects. FIFO decrements the lots' quantities in place, so LIFO starts
from what FIFO left, and the weighted average sees what both left. The model
keeps this behaviour (`ComposedReport`, `Calculate`). It also gives the
evidently intended behaviour, where each engine starts from the entered lots
(`IndependentReport`, `CalculateIntended`). See "Findings".

On the sample data the code gives FIFO COGS 3,950 = 800 + 1,400 + 1,750
(`Sample.SampleFifo`).

## Model

| member | source | states |
|---|---|---|
| Normalize.PurchaseOf | inventory-methods-tool/script.js:78-91 | a purchase row yields a lot exactly when it has a date, a quantity above 0 and a price not below 0; the lot's date is the row's, its quantity and unit cost are the row's fields each read as `parseFloat(..) \|\| 0`, and its total cost is quantity times price |
| Normalize.SaleOf | inventory-methods-tool/script.js:93-106 | a sale row yields a sale exactly when the same filter holds; its date, quantity and unit price are the row's fields read the same way, and revenue is quantity times price |
| Normalize.EmptyFields | inventory-methods-tool/script.js:80-83 | an empty price reads as 0, so the row is kept at no cost; an empty quantity or date drops the row |
| Normalize.KeptAppend | inventory-methods-tool/script.js:78-91 | each row is judged on its own: filtering a concatenation is concatenating the filtered parts |
| Normalize.KeptMember | inventory-methods-tool/script.js:78-91 | a lot is in the filtered list exactly when some row parses to it |
| Normalize.Kept | inventory-methods-tool/script.js:78-106 | the `forEach` filter: the records of the rows that parse, in row order, never more than there are rows (`KeptAppend` and `KeptMember` state what it keeps) |
| Normalize.Purchases | inventory-methods-tool/script.js:78-108 | `this.purchases` after collectData: a permutation of the kept purchase rows, no longer than the row list; `PurchasesOrdered` and `PurchasesAreValid` state its order and its lots |
| Normalize.Sales | inventory-methods-tool/script.js:93-109 | `this.sales` after collectData: a permutation of the kept sale rows, no longer than the row list; `SalesOrdered` and `SalesAreValid` state its order and its sales |
| Normalize.PurchasesAreValid | inventory-methods-tool/script.js:83-89 | every lot in the normalised purchase list has a positive quantity, a price not below 0, and a total cost of quantity times price |
| Normalize.SalesAreValid | inventory-methods-tool/script.js:98-104 | the same for every normalised sale |
| Normalize.PurchasesOrdered | inventory-methods-tool/script.js:108 | the purchase list is sorted by date, is a permutation of the kept rows, and keeps lots with equal dates in row order |
| Normalize.SalesOrdered | inventory-methods-tool/script.js:109 | the same for the sale list |
| StableSort.SortByIsSorted | inventory-methods-tool/script.js:108-109 | the sort leaves its input in ascending key order |
| StableSort.SortByIsPermutation | inventory-methods-tool/script.js:108-109 | the sort neither loses nor adds elements (same multiset) |
| StableSort.SortByIsStable | inventory-methods-tool/script.js:108-109 | for every key, the elements with that key keep their input order |
| StableSort.StableSortUnique | inventory-methods-tool/script.js:108-109 | two sequences that are sorted and agree on every key's elements are equal, so the stable order is unique |
| StableSort.SortByKeepsSorted | inventory-methods-tool/script.js:108-109 | input already in date order comes out unchanged |
| Calculator.InventoryCalculator.CollectData | inventory-methods-tool/script.js:74-110 | the lot objects hold the normalised purchase list, are fresh and distinct, and the sale list is the normalised sales |
| LotQueue.TakeOne | inventory-methods-tool/script.js:129-148 | one pass takes from the chosen end of the deque; the deque only shrinks, and it shrinks unless the sale is then filled |
| LotQueue.Serve | inventory-methods-tool/script.js:129-148 | the inner loop for one sale ends with the sale filled or the deque empty; FIFO only raises the deque's front, LIFO only lowers its back |
| LotQueue.RunSales | inventory-methods-tool/script.js:118-153 | the outer loop writes one record per sale; FIFO only removes from the front, LIFO only from the back |
| LotQueue.Detail | inventory-methods-tool/script.js:122-127 | a sale record carries the sale's date, quantity and price and its breakdown, and its COGS is the total of that breakdown (set at line 150) |
| LotQueue.CostingOf | inventory-methods-tool/script.js:155-166 | an engine's result: the records; COGS the total of the records' COGS; the deque's lots as remaining inventory, and their on-hand value as ending inventory; COGS plus gross profit equal to revenue; the margin `Margin(gross profit, revenue)`, so 0 without revenue. `EndingIsAllOnHand` and `QueueCostingBalances` state its ending inventory and balance |
| LotQueue.RunRecordsEverySale | inventory-methods-tool/script.js:118-153 | record k carries sale k's date, quantity and price, and its COGS is the total of its breakdown |
| LotQueue.ServeConserves | inventory-methods-tool/script.js:129-148 | units are conserved within one sale: the stock before equals the stock after plus the units charged; the sale quantity equals the units charged plus what was left unmet |
| LotQueue.ServeTakesMin | inventory-methods-tool/script.js:129-148 | with no negative quantities, one sale is charged min(sale quantity, units in the deque), and the deque loses exactly that |
| LotQueue.ServeCountsEntries | inventory-methods-tool/script.js:129-148 | a sale has one breakdown entry per lot it removed from the deque, plus at most one for a lot it only partly used, which stays at the end with stock |
| LotQueue.ServeWalksQueue | inventory-methods-tool/script.js:130-147 | breakdown entry k comes from the k-th lot from the chosen end; it records the units that lot lost, at that lot's unit cost and date |
| LotQueue.ServeRemovesOnlyEmptied | inventory-methods-tool/script.js:145-147 | a lot leaves the deque only when its quantity is at most 0 |
| LotQueue.ServeLeavesUnreached | inventory-methods-tool/script.js:129-148 | lots beyond those the sale reached are unchanged |
| LotQueue.ServeNonnegative | inventory-methods-tool/script.js:131-144 | no quantity goes below 0 and no quantity grows |
| LotQueue.ServeFrame | inventory-methods-tool/script.js:144 | a sale changes only the quantities of lots inside the deque |
| LotQueue.ServeConservesValue | inventory-methods-tool/script.js:132-144 | the value on hand before a sale equals the value after plus the sale's COGS |
| LotQueue.TakeMovesValue | inventory-methods-tool/script.js:132-144 | taking units from a lot moves exactly their cost from on-hand value to COGS |
| LotQueue.RunConserves | inventory-methods-tool/script.js:118-153 | over all sales, the stock before equals the stock after plus the units charged |
| LotQueue.RunTakesMin | inventory-methods-tool/script.js:118-153 | over all sales, the units charged are min(units sold, units in the deque), and the deque loses exactly those |
| LotQueue.RunLeavesQuantity | inventory-methods-tool/script.js:112-167 | after a whole engine run, the stock is the entered stock less min(units sold, entered stock) |
| LotQueue.RunNonnegative | inventory-methods-tool/script.js:118-153 | a run keeps every quantity at 0 or above |
| LotQueue.RunEmptiesPassedLots | inventory-methods-tool/script.js:118-153 | starting from positive lots, every lot the run removed holds exactly 0, and every lot still in the deque holds stock |
| LotQueue.RunRemovesOnlyEmptied | inventory-methods-tool/script.js:145-147 | a lot is gone from the deque after a run only if its quantity is at most 0 |
| LotQueue.RunLeavesUnreached | inventory-methods-tool/script.js:118-153 | lots the run did not reach are unchanged, and every lot keeps its date, unit cost and total cost |
| LotQueue.RunKeepsTotalCost | inventory-methods-tool/script.js:142-144 | a run changes only quantities, so the lots' `totalCost` fields add up as before |
| LotQueue.RunConservesValue | inventory-methods-tool/script.js:118-155 | on-hand value before the run equals on-hand value after plus total COGS |
| LotQueue.EndingIsAllOnHand | inventory-methods-tool/script.js:155 | with no negative quantities, the ending inventory over the remaining deque is the on-hand value of all lots |
| LotQueue.QueueCostingBalances | inventory-methods-tool/script.js:112-167 | for FIFO and LIFO alike, COGS plus ending inventory equals the entered lots' on-hand value |
| LotQueue.NoStockMeansEmpty | inventory-methods-tool/script.js:155 | quantities that are not negative and add up to 0 are each 0 |
| LotQueue.WindowHoldsAllValue | inventory-methods-tool/script.js:155 | when every lot outside the deque holds nothing, the deque holds all the on-hand value |
| Calculator.InventoryCalculator.TakeFromDeque | inventory-methods-tool/script.js:130-147 | one pass decrements the chosen lot object in place and shifts or pops it once it is at most 0, as `TakeOne` states |
| Calculator.InventoryCalculator.SellFromDeque | inventory-methods-tool/script.js:119-150 | the inner `while` loop leaves the breakdown, lot objects and deque that `Serve` gives, and the sale's COGS is the total of its breakdown |
| Calculator.InventoryCalculator.SellAll | inventory-methods-tool/script.js:118-153 | the outer `for` loop gives the records, lots and deque of `RunSales`, plus total COGS and revenue |
| Calculator.InventoryCalculator.Drain | inventory-methods-tool/script.js:112-167 | one engine run returns `CostingOf(RunSales(..))` and leaves the lot objects drained as the run says |
| Calculator.InventoryCalculator.CalculateFIFO | inventory-methods-tool/script.js:112-167 | calculateFIFO: the FIFO result for the lots as they stand, with the lots left drained |
| Calculator.InventoryCalculator.CalculateLIFO | inventory-methods-tool/script.js:169-224 | calculateLIFO: the same from the newest end |
| Average.AverageUnitCost | inventory-methods-tool/script.js:233-238 | with stock, unit cost times total quantity is total cost; without stock, the unit cost is 0 |
| Average.AverageDetails | inventory-methods-tool/script.js:240-252 | one record per sale, in order, each charged its quantity at the one unit cost |
| Average.Charge | inventory-methods-tool/script.js:242-251 | one sale's record: its date, quantity and price, the one unit cost, and COGS of quantity times that cost |
| Average.AverageCostingOf | inventory-methods-tool/script.js:226-268 | the weighted-average result: unit cost `AverageUnitCost`; the records `AverageDetails` at that cost, one per sale, and COGS their total; remaining quantity of stock less units sold, valued at the unit cost as ending inventory; COGS plus gross profit equal to revenue; the margin `Margin(gross profit, revenue)`. `AverageSplitsCost` and `AverageWithoutStock` state its balance and its no-stock case |
| Average.AverageDetailsCost | inventory-methods-tool/script.js:240-244 | the records' COGS add up to the units sold at the unit cost |
| Average.AverageCogsIsSoldTimesCost | inventory-methods-tool/script.js:240-244 | weighted-average COGS is the units sold times the unit cost, whether or not stock covers them |
| Average.AverageSplitsCost | inventory-methods-tool/script.js:226-268 | with stock, COGS plus ending inventory equals total purchase cost, even when the remaining quantity is negative |
| Average.AverageWithoutStock | inventory-methods-tool/script.js:238-254 | with no stock, the unit cost, COGS and ending inventory are 0, and the remaining quantity is stock less units sold |
| Average.AverageOfUniformLots | inventory-methods-tool/script.js:233-238 | lots that all cost c per unit average to c |
| Average.AverageWithinCosts | inventory-methods-tool/script.js:233-238 | the average unit cost lies between the lowest and highest lot unit cost |
| Calculator.InventoryCalculator.TotalStock | inventory-methods-tool/script.js:233-236 | the `forEach` sums the lots' current quantities and their `totalCost` fields |
| Calculator.InventoryCalculator.ChargeSales | inventory-methods-tool/script.js:240-252 | the sale loop writes `AverageDetails`, totals COGS and revenue, and lowers the remaining quantity by each sale |
| Calculator.InventoryCalculator.CalculateWeightedAverage | inventory-methods-tool/script.js:226-268 | calculateWeightedAverage returns `AverageCostingOf` the lots as they stand |
| Metrics.Margin | inventory-methods-tool/script.js:157 | with revenue, the margin times revenue is 100 times profit; without revenue, the margin is 0 |
| Metrics.MarginBounds | inventory-methods-tool/script.js:156-157 | with COGS between 0 and revenue, the margin lies between 0 and 100 |
| Metrics.Compare | inventory-methods-tool/script.js:308-319 | A − B for one pair: B's figure plus the difference is A's, for COGS and ending inventory, and the tax effect is the COGS difference at 25% |
| Metrics.Analyze | inventory-methods-tool/script.js:308-319 | the three pairs FIFO−LIFO, FIFO−WA and LIFO−WA are consistent: FIFO−LIFO plus LIFO−WA is FIFO−WA, for COGS, inventory and tax |
| Metrics.CompareAntisymmetric | inventory-methods-tool/script.js:308-319 | swapping the two methods negates every difference; a method compared with itself differs by 0 |
| Metrics.TaxIsQuarterOfCogs | inventory-methods-tool/script.js:316-319 | the tax effect is a quarter of the COGS difference, and it is 0 exactly when the COGS agree |
| Metrics.Classify | inventory-methods-tool/script.js:344-354 | a figure is coloured positive exactly when above 0, negative exactly when below, neutral exactly when 0 |
| Metrics.ClassifySwapped | inventory-methods-tool/script.js:333-354 | swapping a pair swaps positive and negative; a tax figure has the colour of its COGS figure |
| Calculator.ImpactOf | inventory-methods-tool/script.js:308-319 | the impact figures of a report: each method's COGS and ending inventory plus the difference give the other's, and each tax effect is its COGS difference at 25% |
| Calculator.ComposedReport | inventory-methods-tool/script.js:276-280 | FIFO, then LIFO on the lots FIFO drained, then the weighted average on what both left; each engine writes one record per sale |
| Calculator.Calculate | inventory-methods-tool/script.js:270-285 | a report exactly when both normalised lists are nonempty, whose FIFO result is FIFO on the entered lots |
| Calculator.InventoryCalculator.CalculateAndDisplay | inventory-methods-tool/script.js:270-285 | returns `Calculate` of the rows; leaves `this.sales` the normalised sales, and the lot objects as collectData made them when it refuses, otherwise drained by FIFO and then by LIFO (`LifoAfterFifo`) |
| Calculator.InventoryCalculator.RunEngines | inventory-methods-tool/script.js:276-280 | FIFO, LIFO and WA in that order on the same lot objects give `ComposedReport` of the lots as they stood, and leave the lots drained by FIFO and then LIFO |
| Calculator.ComposedFifoUnaffected | inventory-methods-tool/script.js:276 | FIFO runs first, so its result is the same as on the entered lots |
| Calculator.ComposedLifoSeesFifoLeftovers | inventory-methods-tool/script.js:278-279 | under calculateAndDisplay, LIFO's COGS plus ending inventory equals FIFO's ending inventory, not the purchase cost |
| Calculator.ComposedStock | inventory-methods-tool/script.js:278-280 | under calculateAndDisplay, the stock left for the weighted average is max(0, stock − 2 × units sold) |
| Calculator.ComposedAverage | inventory-methods-tool/script.js:278-280 | under calculateAndDisplay, the weighted average charges nothing once twice the units sold reach the stock; otherwise its unit cost times what is left is the whole purchase cost |
| Calculator.ComposedOversold | inventory-methods-tool/script.js:278-280 | when twice the units sold reach the stock, LIFO charges exactly FIFO's ending inventory and leaves nothing; the weighted average reports 0 cost and minus the units sold remaining |
| Calculator.ComposedFifoTableDrained | inventory-methods-tool/script.js:165 | FIFO's `remainingInventory` holds the live lot objects, which LIFO drains before the page lists them (`ShownFifoRemaining`); when twice the units sold reach the stock, every lot in that list shows 0 units |
| Calculator.AliasingCounterexample | inventory-methods-tool/script.js:278-280 | for one lot of 100 at 10 and one sale of 80, calculateAndDisplay reports LIFO COGS 200 and WA COGS 0; independent runs give 800 for each |
| Calculator.InventoryCalculator.RestockAndDrain | inventory-methods-tool/script.js:112-224 | an engine run on fresh lot objects holding the entered values gives `QueueCosting` of those values |
| Calculator.InventoryCalculator.CalculateIndependently | inventory-methods-tool/script.js:270-285 | the corrected calculation: the same guard, with each engine on the entered lots (`CalculateIntended`) |
| Calculator.IntendedBalances | inventory-methods-tool/script.js:270-285 | in the corrected calculation, each engine's COGS plus ending inventory equals the total purchase cost |
| Calculator.OneLotQueueCogs | inventory-methods-tool/script.js:129-148 | with one lot covering one sale, FIFO and LIFO both charge the sale's units at that lot's cost |
| Calculator.OneLotAverageCogs | inventory-methods-tool/script.js:233-244 | with one lot, the weighted average charges a sale its units at that lot's cost |
| Calculator.OneLotAgrees | inventory-methods-tool/script.js:112-268 | with each engine on the entered lots, one lot of Q units at C and one sale of q ≤ Q units give COGS q × C under FIFO, LIFO and the weighted average alike |
| Sample.SampleNormalizes | inventory-methods-tool/script.js:510-524 | collectData keeps all four sample purchases and all three sample sales, in the order entered |
| Sample.SampleFifo | inventory-methods-tool/script.js:112-167 | FIFO on the sample charges 3,950 and leaves 2,710 on hand |
| Sample.SampleLifoRun | inventory-methods-tool/script.js:169-224 | LIFO on the lots FIFO left charges 80 at 13; then 40 at 13 and 80 at 11.50; then 20 at 11.50 and 0 from each of the two lots FIFO emptied |
| Sample.SampleReport | inventory-methods-tool/script.js:270-285 | calculateAndDisplay on the sample: FIFO 3,950 / 2,710; LIFO 2,710 / 0; WA unit cost 0, COGS 0, remaining −350; FIFO−LIFO COGS 1,240 with tax 310; LIFO's last record has 3 entries of 20, 0 and 0 units, leaving 130 of its 150 units unmet |
| Sample.SampleFifoTable | inventory-methods-tool/script.js:165 | the FIFO remaining-inventory list on the sample: the 2024-03-05 and 2024-04-20 lots, both at 0 units, while FIFO's ending inventory is 2,710 |

## Left out

- Reading and writing the page is not modelled: row elements, result cards, detail tables, tab switching, `showResults`, `clearAll` and the `alert`. `Calculate` returns `None` where the tool alerts.
- `loadSampleData` writes rows into the page. The model keeps only its data (`Sample.SamplePurchaseRows`, `Sample.SampleSaleRows`).
- Parsing is not modelled. `parseFloat` and `new Date(..)` are replaced by already-parsed `Option` fields. Dates are integers, compared as the source's `a.date - b.date` compares them.
- Floating-point rounding and `toFixed` formatting are not modelled. All arithmetic is exact.
- Calculator.InventoryCalculator.CollectData: builds the lot values, sorts them, then allocates one lot object per value. The source pushes the objects and then sorts the references. Both leave the same ordered list of fresh objects.
- The deque `[...this.purchases]` is an index window `lo..hi` over the purchase list, not a separate array. `shift` raises `lo` and `pop` lowers `hi`. The aliasing is kept: the window's lots are the calculator's own lot objects.
- The engines' loops are split into helper methods (`TakeFromDeque`, `SellFromDeque`, `SellAll`, `TotalStock`, `ChargeSales`). Each helper has its own loop and contract. The three engine calls of `calculateAndDisplay` are one helper, `RunEngines`.
- A `Costing`'s `remainingInventory` holds the lots' values at the end of its own run, not references to the live objects. In the tool those references are read only after LIFO has drained the same objects, so the FIFO remaining-inventory list shows LIFO's leftovers. `ShownFifoRemaining` gives that list, and `ComposedFifoTableDrained` and `Sample.SampleFifoTable` state it. On the sample, both lots show 0 units although FIFO's ending inventory is 2,710.

## Findings

| source | as written | input that shows it | evidently intended | confidence | as-written member | corrected member |
|---|---|---|---|---|---|---|
| inventory-methods-tool/script.js:278-280 | calculateFIFO, calculateLIFO and calculateWeightedAverage run one after another on the same lot objects; `[...this.purchases]` copies the array, not the lots, so FIFO's `quantity -=` drains the lots LIFO and WA then read | one lot of 100 at 10, one sale of 80: FIFO COGS 800, LIFO COGS 200, WA COGS 0 (WA unit cost 0) | each method costs the entered lots: COGS 800 for all three, and each method's COGS plus ending inventory equals the purchase cost | not executed | Calculator.AliasingCounterexample | Calculator.IntendedBalances |
