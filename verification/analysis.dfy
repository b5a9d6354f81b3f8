/** The batch analysis: per-row revenue and profit, then the same forecast,
    price simulation and recommendation as the dashboard, but over the whole
    table with no product filter, and with profit written as revenue minus
    total cost. */
module Analysis {
  import opened Sales
  import opened Forecasting
  import opened Pricing
  import opened Selection
  import Dashboard

  /** The two columns added to every row. */
  datatype RowKpi = RowKpi(revenue: real, profit: real)

  /** Revenue is price times quantity; profit is revenue less the cost of
      the units sold, that is, the unit margin times the quantity. */
  function Kpi(r: SalesRecord): (k: RowKpi)
    ensures k.profit == (r.price - r.cost) * r.quantity
  {
    var revenue := r.price * r.quantity;
    RowKpi(revenue, revenue - r.cost * r.quantity)
  }

  /** The KPI columns, one entry per row in table order. */
  function Kpis(rows: seq<SalesRecord>): (kpis: seq<RowKpi>)
    ensures |kpis| == |rows|
    ensures forall i :: 0 <= i < |rows| ==> kpis[i] == Kpi(rows[i])
  {
    if |rows| == 0 then [] else [Kpi(rows[0])] + Kpis(rows[1..])
  }

  /** Row profit is the unit margin times the quantity, so it is
      non-negative exactly when the row sold at or above cost (for a row
      that sold anything), and revenue is non-negative for non-negative
      price and quantity. */
  lemma KpiMargin(r: SalesRecord)
    ensures Kpi(r).revenue == r.price * r.quantity
    ensures Kpi(r).profit == (r.price - r.cost) * r.quantity
    ensures r.quantity > 0.0 ==> (Kpi(r).profit >= 0.0 <==> r.price >= r.cost)
    ensures r.price >= 0.0 && r.quantity >= 0.0 ==> Kpi(r).revenue >= 0.0
  {
    var m := r.price - r.cost;
    assert Kpi(r).profit == m * r.quantity;
    if r.quantity > 0.0 {
      if m >= 0.0 {
        assert m * r.quantity >= 0.0;
      } else {
        assert m * r.quantity < 0.0;
      }
    }
  }

  /** The simulation loop of the batch script: one row per candidate in
      candidate order, profit written as revenue minus total cost. */
  function Results(candidates: seq<real>, forecast: real, avgPrice: real, cost: real): (rs: seq<Scenario>)
    ensures |rs| == |candidates|
    ensures forall i :: 0 <= i < |rs| ==>
      && rs[i].price == candidates[i]
      && rs[i].demand == Demand(candidates[i], avgPrice, forecast)
      && rs[i].profit == RevenueProfit(candidates[i], cost, rs[i].demand)
  {
    if |candidates| == 0 then []
    else
      var price := candidates[|candidates| - 1];
      var demand := Demand(price, avgPrice, forecast);
      var revenue := price * demand;
      Results(candidates[..|candidates| - 1], forecast, avgPrice, cost)
        + [Scenario(price, demand, revenue - cost * demand)]
  }

  /** The batch table equals the dashboard's scenario table for the same
      inputs: the two profit formulas never disagree. */
  lemma {:induction false} ResultsMatchSimulate(candidates: seq<real>, forecast: real, avgPrice: real, cost: real)
    ensures Results(candidates, forecast, avgPrice, cost) == Simulate(candidates, forecast, avgPrice, cost)
  {
    if |candidates| > 0 {
      var n := |candidates| - 1;
      ResultsMatchSimulate(candidates[..n], forecast, avgPrice, cost);
      var p := candidates[n];
      ProfitFormsAgree(p, cost, Demand(p, avgPrice, forecast));
    }
  }

  /** What the batch script reports. */
  datatype Report = Report(
    kpis: seq<RowKpi>,
    forecast: real,
    avgPrice: real,
    cost: real,
    results: seq<Scenario>,
    best: Scenario)

  /** The batch run decides, or stops when the table has fewer rows than
      the forecast window. */
  datatype Outcome = Reported(report: Report) | TooFewRows(rows: nat)

  /** The whole batch run over an unfiltered table. */
  function Analyze(rows: seq<SalesRecord>): (r: Outcome)
    ensures r.TooFewRows? <==> |rows| < Window
    ensures r.Reported? ==>
      && r.report.kpis == Kpis(rows)
      && r.report.results == Results(PriceOptions, r.report.forecast, r.report.avgPrice, r.report.cost)
      && |r.report.results| == |PriceOptions|
      && (forall i :: 0 <= i < |PriceOptions| ==> r.report.results[i].price == PriceOptions[i])
      && r.report.best in r.report.results
      && r.report.best.price in PriceOptions
      && forall s :: s in r.report.results ==> s.profit <= r.report.best.profit
  {
    if |rows| < Window then TooFewRows(|rows|)
    else
      var forecast := Forecast(Quantities(rows));
      var avgPrice := Mean(Prices(rows));
      var cost := rows[|rows| - 1].cost;
      var results := Results(PriceOptions, forecast, avgPrice, cost);
      var best := Recommend(results);
      assert forall s :: s in results ==> s.price in PriceOptions;
      Reported(Report(Kpis(rows), forecast, avgPrice, cost, results, best))
  }

  /** The inputs of the batch simulation come from the whole table: the
      forecast is the mean of the last three quantities, the reference price
      the mean of every price, and the cost that of the last row. */
  lemma AnalyzeInputs(rows: seq<SalesRecord>)
    requires |rows| >= Window
    ensures var q := Quantities(rows);
      var n := |rows|;
      var rep := Analyze(rows).report;
      && rep.forecast == (q[n - 3] + q[n - 2] + q[n - 1]) / 3.0
      && rep.avgPrice == Mean(Prices(rows))
      && rep.cost == rows[n - 1].cost
  {
  }

  /** The recommended result is the first one with the highest profit, so
      ties go to the earliest candidate. */
  lemma AnalyzeRecommendsFirstMax(rows: seq<SalesRecord>)
    requires |rows| >= Window
    ensures var rep := Analyze(rows).report;
      exists k :: IsFirstMax(Profits(rep.results), k) && rep.best == rep.results[k]
  {
    var rep := Analyze(rows).report;
    var k := RecommendIndex(rep.results);
    RecommendIsFirstMax(rep.results, k);
    assert rep.best == rep.results[k];
  }

  /** On a table holding a single product the batch analysis and the
      dashboard agree: same forecast, same reference price and cost, same
      scenario table and same recommendation. */
  lemma AnalysisMatchesDashboard(rows: seq<SalesRecord>, product: string, selected: real)
    requires forall i :: 0 <= i < |rows| ==> rows[i].product == product
    ensures Analyze(rows).Reported? <==> Dashboard.Run(rows, product, selected).Ready?
    ensures Analyze(rows).Reported? ==>
      var rep := Analyze(rows).report;
      var d := Dashboard.Run(rows, product, selected).decision;
      && rep.forecast == d.forecast
      && rep.avgPrice == d.avgPrice
      && rep.cost == d.cost
      && rep.results == d.scenarios
      && rep.best == d.recommended
  {
    FilterKeepsAll(rows, product);
    if |rows| >= Window {
      var rep := Analyze(rows).report;
      ResultsMatchSimulate(PriceOptions, rep.forecast, rep.avgPrice, rep.cost);
    }
  }
}
