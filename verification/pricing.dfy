/** The price simulation shared by the dashboard and the batch analysis: the
    step-function demand adjustment, the two written forms of profit, and the
    scenario table built over the candidate prices. */
module Pricing {

  /** The candidate prices, in the order both scripts loop over them. */
  const PriceOptions: seq<real> := [95.0, 100.0, 105.0, 110.0]

  /** Demand multiplier for a price above the reference price. */
  const DemandCut: real := 0.95
  /** Demand multiplier for a price at or below the reference price. */
  const DemandBoost: real := 1.05

  /** Estimated demand at `price`: a price strictly above the historical
      mean loses five percent of the forecast, any other price (the mean
      itself included) gains five percent. */
  function Demand(price: real, avgPrice: real, forecast: real): (d: real)
    ensures price > avgPrice ==> d == forecast * 0.95
    ensures price <= avgPrice ==> d == forecast * 1.05
  {
    if price > avgPrice then forecast * DemandCut else forecast * DemandBoost
  }

  /** Profit written as margin times demand. For a positive demand it is
      positive exactly when the price exceeds the cost. */
  function MarginProfit(price: real, cost: real, demand: real): (profit: real)
    ensures demand > 0.0 ==> (profit > 0.0 <==> price > cost)
  {
    var margin := price - cost;
    assert demand > 0.0 ==> (margin * demand > 0.0 <==> margin > 0.0) by {
      if demand > 0.0 && margin <= 0.0 {
        assert margin * demand <= 0.0;
      }
    }
    margin * demand
  }

  /** Profit written as revenue minus total cost; it is the margin form of
      the same profit. */
  function RevenueProfit(price: real, cost: real, demand: real): (profit: real)
    ensures profit == MarginProfit(price, cost, demand)
  {
    price * demand - cost * demand
  }

  /** The two written forms of profit agree on every input. */
  lemma ProfitFormsAgree(price: real, cost: real, demand: real)
    ensures MarginProfit(price, cost, demand) == RevenueProfit(price, cost, demand)
  {
  }

  /** The adjustment is a step function of the price: any two prices on the
      same side of the reference price get the same demand, and the
      reference price itself sits on the boosted side: it shares the demand
      of every lower price and, unless the forecast is zero, differs from
      that of every higher price. */
  lemma DemandStep(p1: real, p2: real, avgPrice: real, forecast: real)
    requires (p1 > avgPrice) == (p2 > avgPrice)
    ensures Demand(p1, avgPrice, forecast) == Demand(p2, avgPrice, forecast)
    ensures forall p :: p <= avgPrice ==>
      Demand(p, avgPrice, forecast) == Demand(avgPrice, avgPrice, forecast)
    ensures forall p :: p > avgPrice ==>
      (Demand(p, avgPrice, forecast) != Demand(avgPrice, avgPrice, forecast) <==> forecast != 0.0)
  {
  }

  /** For a positive forecast the side of the reference price can be read
      back from the demand: demand falls below the forecast exactly when the
      price is above the mean. */
  lemma DemandRevealsSide(price: real, avgPrice: real, forecast: real)
    requires forecast > 0.0
    ensures Demand(price, avgPrice, forecast) < forecast <==> price > avgPrice
    ensures Demand(price, avgPrice, forecast) > forecast <==> price <= avgPrice
  {
  }

  /** With a non-negative forecast, raising the price never raises demand. */
  lemma DemandAntitone(p1: real, p2: real, avgPrice: real, forecast: real)
    requires forecast >= 0.0
    requires p1 <= p2
    ensures Demand(p2, avgPrice, forecast) <= Demand(p1, avgPrice, forecast)
  {
  }

  /** One simulated outcome for a candidate price. */
  datatype Scenario = Scenario(price: real, demand: real, profit: real)

  /** The scenario table: one row per candidate, appended in candidate
      order, each with its adjusted demand and its margin profit. */
  function Simulate(candidates: seq<real>, forecast: real, avgPrice: real, cost: real): (table: seq<Scenario>)
    ensures |table| == |candidates|
    ensures forall i :: 0 <= i < |table| ==>
      && table[i].price == candidates[i]
      && table[i].demand == Demand(candidates[i], avgPrice, forecast)
      && table[i].profit == MarginProfit(candidates[i], cost, table[i].demand)
  {
    if |candidates| == 0 then []
    else
      var price := candidates[|candidates| - 1];
      var demand := Demand(price, avgPrice, forecast);
      Simulate(candidates[..|candidates| - 1], forecast, avgPrice, cost)
        + [Scenario(price, demand, MarginProfit(price, cost, demand))]
  }

  /** Row `i` of the table, spelled out: the candidate's demand is the
      stepped forecast and its profit is margin times that demand. */
  lemma SimulateRow(candidates: seq<real>, forecast: real, avgPrice: real, cost: real, i: int)
    requires 0 <= i < |candidates|
    ensures var t := Simulate(candidates, forecast, avgPrice, cost);
      var p := candidates[i];
      && t[i].price == p
      && t[i].demand == (if p > avgPrice then forecast * 0.95 else forecast * 1.05)
      && t[i].profit == (p - cost) * t[i].demand
  {
  }

  /** The profit column of a table. */
  function Profits(table: seq<Scenario>): seq<real>
  {
    seq(|table|, i requires 0 <= i < |table| => table[i].profit)
  }

  /** Simulating a list of candidates split in two gives the two tables one
      after the other: no row depends on any other. */
  lemma {:induction false} SimulateAppend(a: seq<real>, b: seq<real>, forecast: real, avgPrice: real, cost: real)
    ensures Simulate(a + b, forecast, avgPrice, cost)
      == Simulate(a, forecast, avgPrice, cost) + Simulate(b, forecast, avgPrice, cost)
  {
    var t := Simulate(a + b, forecast, avgPrice, cost);
    var u := Simulate(a, forecast, avgPrice, cost) + Simulate(b, forecast, avgPrice, cost);
    assert |t| == |u|;
    forall i | 0 <= i < |t|
      ensures t[i] == u[i]
    {
      if i < |a| {
        assert (a + b)[i] == a[i];
      } else {
        assert (a + b)[i] == b[i - |a|];
      }
    }
  }

  /** The scenario loop as written: start from an empty list and append one
      row per candidate. */
  method SimulateLoop(candidates: seq<real>, forecast: real, avgPrice: real, cost: real)
    returns (results: seq<Scenario>)
    ensures results == Simulate(candidates, forecast, avgPrice, cost)
  {
    results := [];
    var i := 0;
    while i < |candidates|
      invariant 0 <= i <= |candidates|
      invariant results == Simulate(candidates[..i], forecast, avgPrice, cost)
    {
      var price := candidates[i];
      var demand: real;
      if price > avgPrice {
        demand := forecast * 0.95;
      } else {
        demand := forecast * 1.05;
      }
      assert demand == Demand(price, avgPrice, forecast);
      assert MarginProfit(price, cost, demand) == (price - cost) * demand;
      assert candidates[..i + 1][..i] == candidates[..i];
      results := results + [Scenario(price, demand, (price - cost) * demand)];
      i := i + 1;
    }
    assert candidates[..|candidates|] == candidates;
  }
}
