# Retail pricing decision — Dafny model

A model of the pricing decision rule of a small retail decision dashboard.
The rule appears twice. `app.py` is the interactive dashboard. `analysis.py`
is a batch script. Both:

- forecast next-period demand as the rolling mean of the last three
  `quantity` values;
- step the forecast by ±5 % against the mean historical price (a candidate
  strictly above the mean gets `0.95`, any other candidate, the mean itself
  included, gets `1.05`);
- compute a profit for each candidate price 95, 100, 105 and 110;
- recommend the first candidate with the highest profit (pandas `idxmax`).

The dashboard first keeps only the chosen product's rows, in their original
order. It also evaluates the price picked on a slider and shows a success
message or a "better option" warning. The model's decision carries both
the message the code shows and a corrected, profit-based message (see
"## Findings"). The batch script works on the whole
table and adds per-row revenue and profit columns.

All arithmetic is exact `real`. Modules follow the program's structure:

- `Sales` (`sales.dfy`): the record type, the columns, sum/mean, and the
  product filter.
- `Forecasting` (`forecast.dfy`): the rolling-mean series and the forecast.
- `Pricing` (`pricing.dfy`): the candidate prices, the demand rule, both
  profit formulas, and the scenario table.
- `Selection` (`selection.dfy`): the stable argmax and the recommendation.
- `Dashboard` (`dashboard.dfy`): the whole `app.py` decision.
- `Analysis` (`analysis.dfy`): the whole `analysis.py` batch run.

Where the code leaves something undefined, the model makes it explicit:

- With fewer than three rows, pandas produces NaN and the script cannot
  recommend anything. `Forecasting.Forecast` requires three quantities.
  `Dashboard.Run` and `Analysis.Analyze` return an explicit
  "not enough history" outcome instead.
- The forecast never falls back to a mean of fewer values.
- Records with negative price, quantity or cost are not rejected, because
  the code does not reject them.

## Model

| member | source | states |
|---|---|---|
| `Sales.FilterProduct` | app.py:11 | the filtered table holds exactly the rows of the chosen product and no others, and is never longer than the table |
| `Sales.FilterAppend` | app.py:11 | filtering commutes with concatenation, so kept rows stay in table order |
| `Sales.FilterKeepsAll` | app.py:11 | a table holding only the chosen product passes the filter unchanged |
| `Sales.FilterIdempotent` | app.py:11 | filtering twice by the same product is the same as filtering once |
| `Sales.FilterLast` | app.py:16 | the last filtered row, whose cost is used, is the last row of the whole table that belongs to the product |
| `Sales.Mean` | app.py:15 | the mean of a non-empty column times its length is the column's sum |
| `Sales.SumBounds` | app.py:15 | a column of n values each in [lo, hi] sums to between n·lo and n·hi |
| `Sales.MeanBounds` | app.py:15 | the mean price lies between any lower and upper bound of the prices |
| `Sales.MeanOfConstant` | app.py:15 | the mean of equal prices is that price |
| `Forecasting.Rolling` | app.py:14 | the rolling series has one entry per row, and entry i is defined exactly when at least a window of values ends at i (`min_periods` equals the window) |
| `Forecasting.RollingEntryBounds` | app.py:14 | a defined rolling entry lies between any lower and upper bound of the values in its window |
| `Forecasting.Forecast` | app.py:14 | the last rolling-mean entry is the mean of the last three quantities; it is defined only when there are at least three |
| `Forecasting.ForecastIgnoresOlderHistory` | analysis.py:11 | rows older than the last three never change the forecast |
| `Forecasting.ForecastBounds` | analysis.py:11 | the forecast lies between the smallest and largest of the last three quantities, so non-negative quantities give a non-negative forecast |
| `Pricing.Demand` | app.py:54-58 | demand is forecast·0.95 for a price strictly above the mean and forecast·1.05 otherwise (analysis.py:21-24 uses the same rule) |
| `Pricing.DemandStep` | app.py:54-58 | demand is a step function: two prices on the same side of the mean get the same demand; the mean itself shares the demand of every lower price, and differs from every higher price's exactly when the forecast is non-zero |
| `Pricing.DemandRevealsSide` | analysis.py:21-24 | for a positive forecast, demand falls below the forecast exactly when the price is above the mean, and rises above it exactly otherwise |
| `Pricing.DemandAntitone` | analysis.py:21-24 | with a non-negative forecast, a higher price never gets a higher demand |
| `Pricing.MarginProfit` | app.py:60 | for a positive demand, the scenario profit (p − cost)·d is positive exactly when the price exceeds the cost |
| `Pricing.RevenueProfit` | app.py:38-39 | the revenue-minus-total-cost profit (also analysis.py:26-27) equals the margin profit for every input |
| `Pricing.ProfitFormsAgree` | app.py:60 | the scenario profit (p − cost)·d equals the slider and batch form p·d − cost·d (app.py:38-39, analysis.py:26-27) for every input |
| `Pricing.Simulate` | app.py:51-61 | one row per candidate, in candidate order; each row holds the candidate, its stepped demand and its margin profit |
| `Pricing.SimulateRow` | app.py:54-60 | row i's demand is forecast·0.95 or forecast·1.05 by the side of the mean, and its profit is (p − cost) times that demand |
| `Pricing.SimulateAppend` | app.py:53-61 | simulating a split candidate list gives the two tables one after the other, so no row depends on another |
| `Pricing.SimulateLoop` | app.py:51-61 | the append loop, started from an empty list, builds exactly the scenario table |
| `Selection.FirstMaxIndex` | app.py:65 | the returned position holds a maximal profit, and every earlier position holds a strictly smaller one |
| `Selection.FirstMaxUnique` | app.py:65 | a position is maximal with only smaller values before it if and only if it is the returned one |
| `Selection.RecommendIndex` | analysis.py:41 | the recommended row index has maximal profit and is the first such index |
| `Selection.Recommend` | analysis.py:41 | the recommended row is a row of the table, and no row has a higher profit |
| `Selection.RecommendTieBreak` | app.py:65 | when a row has the highest profit, the recommendation is at or before it and has the same profit |
| `Selection.RecommendIsFirstMax` | app.py:65 | the recommendation index is exactly the first position of the maximal profit, in both directions |
| `Dashboard.SliderScenario` | app.py:32-39 | at any slider price, candidate or not, the slider's demand is the stepped forecast for that price and its profit is the margin profit at that demand |
| `Dashboard.SliderMatchesTable` | app.py:32-39 | at a candidate price, the slider's demand and profit are those of that candidate's scenario row |
| `Dashboard.AsWrittenVerdict` | app.py:67-75 | as written: the success message is chosen exactly when the slider price equals the recommended price, otherwise the warning; both name the recommended price |
| `Dashboard.ProfitVerdict` | app.py:67-75 | corrected: the warning is chosen exactly when the recommended price earns strictly more than the slider price |
| `Dashboard.Decide` | app.py:14-75 | forecast, mean price and last-row cost come from the product's rows; four scenario rows in candidate order; the recommendation is one of them, is a candidate price, and has maximal profit; for any slider price, candidate or not, the slider demand is the stepped forecast at that price and the slider profit is the margin profit at that demand; the shown message names the recommended price and is the success message exactly when the slider price equals it; the corrected message beside it is the profit-based one for the slider profit and the recommendation (see `Dashboard.DecideCorrectedVerdictSound`) |
| `Dashboard.Run` | app.py:11-14 | the run stops with "not enough history" exactly when the product has fewer than three rows |
| `Dashboard.RunForecast` | app.py:11-14 | a ready run decides over the product's own rows, and its forecast is the mean of their last three quantities |
| `Dashboard.RunPriceAndCost` | app.py:15-16 | the reference price is the mean of the product's prices; the cost is that of the product's most recent row in the full table |
| `Dashboard.DecideScenarios` | app.py:54-60 | each scenario row carries the stepped demand and the margin profit computed from the product's forecast, mean price and cost |
| `Dashboard.DecideRecommendsFirstMax` | app.py:65 | the recommended scenario is the first one with maximal profit: every scenario earns at most as much, every earlier one strictly less |
| `Dashboard.DecideSliderAgrees` | app.py:32-39 | when the slider sits on a candidate price, it shows that candidate's demand and profit |
| `Dashboard.DecideCorrectedVerdictSound` | app.py:67-75 | corrected: the profit-based message, not the one the code shows. Its warning implies the recommendation earns strictly more than the slider price; success implies no candidate earns more than the slider price; choosing the recommended price always gets success |
| `Dashboard.DecideVerdictsDiffer` | app.py:67-75 | the shown message and the corrected one differ exactly when the slider is off the recommended price yet earns at least as much; then the code warns where the corrected rule reports success |
| `Dashboard.AsWrittenMisleads` | app.py:65-75 | a concrete table where the slider price 110 ties the recommended profit, yet the shown message is the "yields higher profit" warning; the corrected message is success |
| `Dashboard.AsWrittenMisleadsOffList` | app.py:23-75 | on the same table the slider price 120, which is not a candidate, earns 10925, more than the recommended 9975, yet the shown message is the warning naming 100 |
| `Analysis.Kpi` | analysis.py:7-8 | a row's profit column is its unit margin times its quantity |
| `Analysis.Kpis` | analysis.py:7-8 | one KPI entry per row, in row order, each the row's revenue and profit |
| `Analysis.KpiMargin` | analysis.py:7-8 | revenue = price·quantity; profit = (price − cost)·quantity; for a row that sold anything, profit is non-negative exactly when price ≥ cost; revenue is non-negative for non-negative inputs |
| `Analysis.Results` | analysis.py:19-29 | one row per candidate in list order, with the stepped demand and the profit revenue − cost·demand |
| `Analysis.ResultsMatchSimulate` | analysis.py:26-27 | the batch table equals the dashboard's scenario table for the same forecast, mean price and cost |
| `Analysis.Analyze` | analysis.py:7-41 | stops exactly when the table has fewer than three rows; otherwise the KPI column is exactly the per-row revenue and profit of every row, the results are exactly the batch simulation over the reported whole-table forecast, mean price and last-row cost, four results in candidate order, and a recommended candidate with maximal profit |
| `Analysis.AnalyzeInputs` | analysis.py:11-15 | forecast is the mean of the last three quantities of the whole table, reference price the mean of all prices, cost the last row's |
| `Analysis.AnalyzeRecommendsFirstMax` | analysis.py:41 | the recommended result is the first one with maximal profit, so ties go to the earliest candidate |
| `Analysis.AnalysisMatchesDashboard` | analysis.py:11-41 | on a single-product table, the batch run and the dashboard agree on forecast, mean price, cost, scenario table and recommendation |

## Left out

- Pricing.Simulate: profits are exact reals. The code rounds profit to two decimals (app.py:61, analysis.py:29) before `idxmax`, so a tie created only by rounding is not captured.
- Analysis.Results: the rounding of demand to one decimal and of profit to two decimals (analysis.py:29) is not modelled, for the same reason.
- IEEE floating-point behaviour in general. Every quantity is an exact `real`.
- NaN propagation with fewer than three rows, and `idxmax` on all-NaN columns. Both become the explicit "not enough history" outcomes of `Dashboard.Run` and `Analysis.Analyze`.
- Streamlit widgets: title, product select box, metrics, columns, expander, table, chart and explanation text (app.py:4-9, 18-29, 42-46, 78-103). These are presentation. The explanation branch only repeats the demand condition. The product is an input to `Dashboard.Run`.
- The slider range and step (app.py:23-29). The selected price is an arbitrary `real` input.
- CSV loading and printing (app.py:7, analysis.py:4, analysis.py:37-45). These are file and console I/O. The table is an input sequence.
- The `int(...)` conversion of the recommended price inside the message text (app.py:69, 74). This only formats the message.

## Findings

| source | as written | input that shows it | evidently intended | confidence | as-written member | corrected member |
|---|---|---|---|---|---|---|
| app.py:67-75 | the "Better Option Available: ₹X yields higher profit" warning is shown whenever the slider price differs from the `idxmax` price. This includes a slider price that earns exactly the best profit (`idxmax` keeps only the first of tied rows). It also includes slider prices 115 and 120, which the slider offers (app.py:23-29) but the candidate list does not, and which can earn more than every candidate | three rows of one product with prices 100, 103, 103 (mean 102), quantity 100 each, last cost 5. Slider at 110: prices 100 and 110 both earn 9975, 100 is recommended, and 110 gets the warning. Slider at 120: it earns 10925, more than the recommended 9975, and still gets the warning | warn only when the recommended price earns strictly more than the slider price (only the choice of message is corrected, not its text: the success message still names the recommended price, which for slider 120 is not the most profitable price) | not executed; medium for the tie (exact arithmetic; in floating point both profits round to 9975.0), high for slider 120 | `Dashboard.AsWrittenVerdict`, shown as `Decision.verdict` by `Dashboard.Decide`; exhibited by `Dashboard.AsWrittenMisleads` and `Dashboard.AsWrittenMisleadsOffList` | `Dashboard.ProfitVerdict`, carried as `Decision.correctedVerdict` by `Dashboard.Decide`, proved in `Dashboard.DecideCorrectedVerdictSound` and compared in `Dashboard.DecideVerdictsDiffer` |
