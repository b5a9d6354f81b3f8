/** The interactive dashboard's decision: filter the table to one product,
    forecast its demand, evaluate the price picked on the slider, simulate
    the candidate prices, recommend the most profitable one and decide which
    message to show. Widgets, metrics, chart and explanation text are not
    modelled; the slider value is an input. */
module Dashboard {
  import opened Sales
  import opened Forecasting
  import opened Pricing
  import opened Selection

  /** The message under "System Recommendation", naming the recommended
      price: the success message or the better-option warning. */
  datatype Verdict = OptimalChoice(best: real) | BetterOption(best: real)

  /** Everything the dashboard decides for one product and one slider value.
      `verdict` is the message the dashboard shows; `correctedVerdict` is the
      profit-based message it evidently means to show. */
  datatype Decision = Decision(
    forecast: real,
    avgPrice: real,
    cost: real,
    selectedDemand: real,
    selectedProfit: real,
    scenarios: seq<Scenario>,
    recommended: Scenario,
    verdict: Verdict,
    correctedVerdict: Verdict)

  /** A run either decides, or stops because the product has fewer rows than
      the forecast window (pandas would carry NaN into every figure). */
  datatype Outcome = Ready(decision: Decision) | NotEnoughHistory(rows: nat)

  /** The slider path: demand and profit at the chosen price, with the
      demand rule written out a second time and profit written as revenue
      minus total cost. */
  function SliderScenario(selected: real, forecast: real, avgPrice: real, cost: real): (s: Scenario)
    ensures s.price == selected
    ensures s.demand == Demand(selected, avgPrice, forecast)
    ensures s.profit == MarginProfit(selected, cost, s.demand)
  {
    var demand := if selected > avgPrice then forecast * 0.95 else forecast * 1.05;
    var revenue := selected * demand;
    ProfitFormsAgree(selected, cost, demand);
    Scenario(selected, demand, revenue - cost * demand)
  }

  /** The slider path and the scenario table agree: at a candidate price the
      slider shows the demand and profit of that candidate's row. */
  lemma SliderMatchesTable(candidates: seq<real>, i: int, forecast: real, avgPrice: real, cost: real)
    requires 0 <= i < |candidates|
    ensures SliderScenario(candidates[i], forecast, avgPrice, cost)
      == Simulate(candidates, forecast, avgPrice, cost)[i]
  {
    var p := candidates[i];
    var d := Demand(p, avgPrice, forecast);
    ProfitFormsAgree(p, cost, d);
  }

  /** The message as the dashboard chooses it: success exactly when the
      slider price is the recommended price. */
  function AsWrittenVerdict(selected: real, recommended: Scenario): (v: Verdict)
    ensures v.best == recommended.price
    ensures v.OptimalChoice? <==> selected == recommended.price
  {
    if selected == recommended.price then OptimalChoice(recommended.price)
    else BetterOption(recommended.price)
  }

  /** The message chosen by profit: the warning only when the recommended
      price earns strictly more than the slider price. */
  function ProfitVerdict(selectedProfit: real, recommended: Scenario): (v: Verdict)
    ensures v.best == recommended.price
    ensures v.BetterOption? <==> recommended.profit > selectedProfit
  {
    if selectedProfit >= recommended.profit then OptimalChoice(recommended.price)
    else BetterOption(recommended.price)
  }

  /** The decision over one product's rows (at least a forecast window of
      them) with the slider at `selected`. The message shown is the
      as-written one; the corrected one is carried beside it. */
  function Decide(own: seq<SalesRecord>, selected: real): (d: Decision)
    requires |own| >= Window
    ensures d.forecast == Forecast(Quantities(own))
    ensures d.avgPrice == Mean(Prices(own))
    ensures d.cost == own[|own| - 1].cost
    ensures |d.scenarios| == |PriceOptions|
    ensures forall i :: 0 <= i < |PriceOptions| ==> d.scenarios[i].price == PriceOptions[i]
    ensures d.recommended in d.scenarios
    ensures d.recommended.price in PriceOptions
    ensures forall s :: s in d.scenarios ==> s.profit <= d.recommended.profit
    ensures d.verdict.best == d.recommended.price
    ensures d.verdict.OptimalChoice? <==> selected == d.recommended.price
    ensures d.selectedDemand == Demand(selected, d.avgPrice, d.forecast)
    ensures d.selectedProfit == MarginProfit(selected, d.cost, d.selectedDemand)
    ensures d.correctedVerdict == ProfitVerdict(d.selectedProfit, d.recommended)
  {
    var forecast := Forecast(Quantities(own));
    var avgPrice := Mean(Prices(own));
    var cost := own[|own| - 1].cost;
    var slider := SliderScenario(selected, forecast, avgPrice, cost);
    var table := Simulate(PriceOptions, forecast, avgPrice, cost);
    var best := Recommend(table);
    assert forall s :: s in table ==> s.price in PriceOptions;
    Decision(forecast, avgPrice, cost, slider.demand, slider.profit,
             table, best, AsWrittenVerdict(selected, best), ProfitVerdict(slider.profit, best))
  }

  /** The full run for `product`: filter, then decide, or stop when the
      product has fewer rows than the forecast window. */
  function Run(rows: seq<SalesRecord>, product: string, selected: real): (r: Outcome)
    ensures r.NotEnoughHistory? <==> |FilterProduct(rows, product)| < Window
    ensures r.NotEnoughHistory? ==> r.rows == |FilterProduct(rows, product)|
  {
    var own := FilterProduct(rows, product);
    if |own| < Window then NotEnoughHistory(|own|) else Ready(Decide(own, selected))
  }

  /** A ready run is the decision over the product's own rows, and its
      forecast is the mean of the last three of their quantities. */
  lemma RunForecast(rows: seq<SalesRecord>, product: string, selected: real)
    requires Run(rows, product, selected).Ready?
    ensures var own := FilterProduct(rows, product);
      var q := Quantities(own);
      var n := |own|;
      var d := Run(rows, product, selected).decision;
      && n >= Window
      && d == Decide(own, selected)
      && d.forecast == (q[n - 3] + q[n - 2] + q[n - 1]) / 3.0
  {
    var own := FilterProduct(rows, product);
    assert |own| >= Window;
    var d := Decide(own, selected);
    assert Run(rows, product, selected).decision == d;
    assert d.forecast == Forecast(Quantities(own));
  }

  /** The reference price is the mean of the product's prices, and the cost
      is that of the product's most recent row in the whole table. */
  lemma RunPriceAndCost(rows: seq<SalesRecord>, product: string, selected: real)
    requires Run(rows, product, selected).Ready?
    ensures var own := FilterProduct(rows, product);
      var d := Run(rows, product, selected).decision;
      && d.avgPrice == Mean(Prices(own))
      && exists j :: LastOfProduct(rows, product, j) && rows[j].cost == d.cost
  {
    FilterLast(rows, product);
  }

  /** Every scenario row carries the stepped demand and the margin profit
      for its candidate price, computed from the product's forecast,
      reference price and cost. */
  lemma DecideScenarios(own: seq<SalesRecord>, selected: real, i: int)
    requires |own| >= Window
    requires 0 <= i < |PriceOptions|
    ensures var d := Decide(own, selected);
      var p := PriceOptions[i];
      && d.scenarios[i].demand == Demand(p, d.avgPrice, d.forecast)
      && d.scenarios[i].profit == MarginProfit(p, d.cost, d.scenarios[i].demand)
  {
  }

  /** The recommended scenario is the first one with the highest profit,
      so ties between candidates go to the earliest in candidate order. */
  lemma DecideRecommendsFirstMax(own: seq<SalesRecord>, selected: real)
    requires |own| >= Window
    ensures var d := Decide(own, selected);
      exists k :: IsFirstMax(Profits(d.scenarios), k) && d.recommended == d.scenarios[k]
  {
    var d := Decide(own, selected);
    var k := RecommendIndex(d.scenarios);
    RecommendIsFirstMax(d.scenarios, k);
    assert d.recommended == d.scenarios[k];
  }

  /** The slider price, when it is one of the candidates, shows exactly the
      demand and profit of that candidate's scenario row. */
  lemma DecideSliderAgrees(own: seq<SalesRecord>, selected: real, i: int)
    requires |own| >= Window
    requires 0 <= i < |PriceOptions| && PriceOptions[i] == selected
    ensures var d := Decide(own, selected);
      d.selectedDemand == d.scenarios[i].demand && d.selectedProfit == d.scenarios[i].profit
  {
    var d := Decide(own, selected);
    SliderMatchesTable(PriceOptions, i, d.forecast, d.avgPrice, d.cost);
  }

  /** The corrected message is truthful: its warning means the recommended
      price earns strictly more than the slider price, and its success
      message means no candidate earns more than the slider price. Choosing
      the recommended price always gets the success message. */
  lemma DecideCorrectedVerdictSound(own: seq<SalesRecord>, selected: real)
    requires |own| >= Window
    ensures var d := Decide(own, selected);
      var v := d.correctedVerdict;
      && v.best == d.recommended.price
      && (v.BetterOption? ==> d.recommended.profit > d.selectedProfit)
      && (v.OptimalChoice? ==> forall s :: s in d.scenarios ==> s.profit <= d.selectedProfit)
      && (selected == d.recommended.price ==> v.OptimalChoice?)
  {
    var d := Decide(own, selected);
    if selected == d.recommended.price {
      var k := RecommendIndex(d.scenarios);
      DecideSliderAgrees(own, selected, k);
    }
  }

  /** The shown message and the corrected one differ exactly when the
      slider is off the recommended price but earns at least as much as it;
      then the dashboard warns although no candidate beats the slider. */
  lemma DecideVerdictsDiffer(own: seq<SalesRecord>, selected: real)
    requires |own| >= Window
    ensures var d := Decide(own, selected);
      && (d.verdict != d.correctedVerdict
          <==> selected != d.recommended.price && d.selectedProfit >= d.recommended.profit)
      && (d.verdict != d.correctedVerdict ==> d.verdict.BetterOption? && d.correctedVerdict.OptimalChoice?)
  {
    DecideCorrectedVerdictSound(own, selected);
  }

  /** Three rows of one product, used to show where the as-written message
      goes wrong. */
  const TieSample: seq<SalesRecord> := [
    SalesRecord("A", "day1", 100.0, 100.0, 5.0),
    SalesRecord("A", "day2", 103.0, 100.0, 5.0),
    SalesRecord("A", "day3", 103.0, 100.0, 5.0)]

  /** The simulation inputs of the sample: forecast 100, mean price 102,
      cost 5. */
  lemma TieSampleInputs()
    ensures FilterProduct(TieSample, "A") == TieSample
    ensures Forecast(Quantities(TieSample)) == 100.0
    ensures Mean(Prices(TieSample)) == 102.0
  {
    FilterKeepsAll(TieSample, "A");
    var prices := Prices(TieSample);
    assert prices == [100.0, 103.0, 103.0];
    Sum3(prices);
  }

  /** The sample's scenario table: 100 and 110 tie at 9975 and the first of
      them is recommended. */
  lemma TieSampleTable()
    ensures var table := Simulate(PriceOptions, 100.0, 102.0, 5.0);
      && table == [Scenario(95.0, 105.0, 9450.0), Scenario(100.0, 105.0, 9975.0),
                   Scenario(105.0, 95.0, 9500.0), Scenario(110.0, 95.0, 9975.0)]
      && Recommend(table) == table[1]
  {
    var table := Simulate(PriceOptions, 100.0, 102.0, 5.0);
    SimulateRow(PriceOptions, 100.0, 102.0, 5.0, 0);
    SimulateRow(PriceOptions, 100.0, 102.0, 5.0, 1);
    SimulateRow(PriceOptions, 100.0, 102.0, 5.0, 2);
    SimulateRow(PriceOptions, 100.0, 102.0, 5.0, 3);
    assert IsFirstMax(Profits(table), 1);
    RecommendIsFirstMax(table, 1);
  }

  /** With mean price 102, forecast 100 and cost 5, the prices 100 and 110
      both earn 9975. The recommendation is 100 (the first maximum), so a
      user who picks 110 is told a better option exists and "yields higher
      profit", although 110 earns exactly as much. The corrected message
      reports the choice as optimal. */
  lemma AsWrittenMisleads()
    ensures var r := Run(TieSample, "A", 110.0);
      && r.Ready?
      && r.decision.recommended.price == 100.0
      && r.decision.selectedProfit == r.decision.recommended.profit == 9975.0
      && r.decision.verdict == BetterOption(100.0)
      && r.decision.correctedVerdict == OptimalChoice(100.0)
  {
    TieSampleInputs();
    TieSampleTable();
    var table := Simulate(PriceOptions, 100.0, 102.0, 5.0);
    assert SliderScenario(110.0, 100.0, 102.0, 5.0) == Scenario(110.0, 95.0, 9975.0);
    assert Decide(TieSample, 110.0) == Decision(100.0, 102.0, 5.0, 95.0, 9975.0, table, table[1],
                                                BetterOption(100.0), OptimalChoice(100.0));
  }

  /** The same sample with the slider at 120, a price the slider offers but
      the candidate list does not: 120 earns 10925, strictly more than the
      recommended 9975, and the dashboard still says 100 "yields higher
      profit". */
  lemma AsWrittenMisleadsOffList()
    ensures var r := Run(TieSample, "A", 120.0);
      && r.Ready?
      && r.decision.recommended.price == 100.0
      && r.decision.recommended.profit == 9975.0
      && r.decision.selectedProfit == 10925.0
      && r.decision.verdict == BetterOption(100.0)
      && r.decision.correctedVerdict == OptimalChoice(100.0)
  {
    TieSampleInputs();
    TieSampleTable();
    var table := Simulate(PriceOptions, 100.0, 102.0, 5.0);
    assert SliderScenario(120.0, 100.0, 102.0, 5.0) == Scenario(120.0, 95.0, 10925.0);
    assert Decide(TieSample, 120.0) == Decision(100.0, 102.0, 5.0, 95.0, 10925.0, table, table[1],
                                                BetterOption(100.0), OptimalChoice(100.0));
  }
}
