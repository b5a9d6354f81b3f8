/** The recommendation: the scenario row `idxmax` picks on the profit column,
    that is, the first row whose profit is maximal. */
module Selection {
  import opened Pricing

  /** `k` holds a maximal value of `xs` and no earlier position does. */
  ghost predicate IsFirstMax(xs: seq<real>, k: int)
  {
    && 0 <= k < |xs|
    && (forall j :: 0 <= j < |xs| ==> xs[j] <= xs[k])
    && (forall j :: 0 <= j < k ==> xs[j] < xs[k])
  }

  /** Position of the first maximum, found by a left-to-right scan that
      only moves on a strictly larger value. */
  function FirstMaxIndex(xs: seq<real>): (k: nat)
    requires |xs| > 0
    ensures k < |xs|
    ensures forall j :: 0 <= j < |xs| ==> xs[j] <= xs[k]
    ensures forall j :: 0 <= j < k ==> xs[j] < xs[k]
  {
    if |xs| == 1 then 0
    else
      var k := FirstMaxIndex(xs[..|xs| - 1]);
      if xs[|xs| - 1] > xs[k] then |xs| - 1 else k
  }

  /** The first maximum is unique: any position that is maximal and beats
      every earlier position is the one `FirstMaxIndex` returns. */
  lemma FirstMaxUnique(xs: seq<real>, k: int)
    requires |xs| > 0
    ensures IsFirstMax(xs, k) <==> k == FirstMaxIndex(xs)
  {
    var m := FirstMaxIndex(xs);
    if IsFirstMax(xs, k) {
      assert xs[m] <= xs[k] && xs[k] <= xs[m];
    }
  }

  /** Row index of the recommendation: `idxmax` over the profit column. */
  function RecommendIndex(table: seq<Scenario>): (k: nat)
    requires |table| > 0
    ensures k < |table|
    ensures forall j :: 0 <= j < |table| ==> table[j].profit <= table[k].profit
    ensures forall j :: 0 <= j < k ==> table[j].profit < table[k].profit
  {
    var profits := Profits(table);
    assert forall j :: 0 <= j < |table| ==> table[j].profit == profits[j];
    FirstMaxIndex(profits)
  }

  /** The recommended row of a scenario table. */
  function Recommend(table: seq<Scenario>): (best: Scenario)
    requires |table| > 0
    ensures best in table
    ensures forall s :: s in table ==> s.profit <= best.profit
  {
    table[RecommendIndex(table)]
  }

  /** Ties go to the earliest row: the recommendation sits at or before
      every row that reaches the highest profit. */
  lemma RecommendTieBreak(table: seq<Scenario>, i: int)
    requires 0 <= i < |table|
    requires forall j :: 0 <= j < |table| ==> table[j].profit <= table[i].profit
    ensures RecommendIndex(table) <= i
    ensures Recommend(table).profit == table[i].profit
  {
    var k := RecommendIndex(table);
    assert table[k].profit <= table[i].profit;
  }

  /** The recommendation index is exactly the first position of the maximal
      profit, in both directions. */
  lemma RecommendIsFirstMax(table: seq<Scenario>, k: int)
    requires |table| > 0
    ensures IsFirstMax(Profits(table), k) <==> k == RecommendIndex(table)
  {
    FirstMaxUnique(Profits(table), k);
  }
}
