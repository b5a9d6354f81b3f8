/** The demand forecast: the last value of a trailing rolling mean over the
    `quantity` column, as `quantity.rolling(window=3).mean().iloc[-1]`. */
module Forecasting {
  import opened Sales

  /** Width of the rolling window. pandas leaves `min_periods` equal to the
      window, so a position with fewer preceding values has no mean. */
  const Window: nat := 3

  /** A rolling-mean entry: `None` stands for pandas' NaN. */
  datatype Option<T> = None | Some(value: T)

  /** The rolling-mean series of `xs`: position `i` holds the mean of the
      `w` values ending at `i`, or `None` (pandas' NaN) while fewer than `w`
      values are available. The series has one entry per value. */
  function Rolling(xs: seq<real>, w: nat): (series: seq<Option<real>>)
    requires w > 0
    ensures |series| == |xs|
    ensures forall i :: 0 <= i < |xs| ==> (series[i].Some? <==> i >= w - 1)
  {
    seq(|xs|, i requires 0 <= i < |xs| =>
      if i + 1 < w then None else Some(Mean(xs[i + 1 - w..i + 1])))
  }

  /** Every defined entry of the series lies between the smallest and the
      largest value of its own window. */
  lemma RollingEntryBounds(xs: seq<real>, w: nat, i: int, lo: real, hi: real)
    requires w > 0
    requires w - 1 <= i < |xs|
    requires forall j :: i + 1 - w <= j <= i ==> lo <= xs[j] <= hi
    ensures lo <= Rolling(xs, w)[i].value <= hi
  {
    var window := xs[i + 1 - w..i + 1];
    forall j | 0 <= j < |window|
      ensures lo <= window[j] <= hi
    {
      assert window[j] == xs[i + 1 - w + j];
    }
    MeanBounds(window, lo, hi);
  }

  lemma Sum3(s: seq<real>)
    requires |s| == 3
    ensures Sum(s) == s[0] + s[1] + s[2]
  {
    assert Sum(s[..1]) == s[0] by {
      assert s[..1][..0] == [];
    }
    assert Sum(s[..2]) == s[0] + s[1] by {
      assert s[..2][..1] == s[..1];
    }
    assert s[..3] == s;
  }

  /** The next-period demand: the final entry of the rolling series, which
      is the mean of the three most recent quantities. Defined only when at
      least three quantities exist. */
  function Forecast(quantities: seq<real>): (fc: real)
    requires |quantities| >= Window
    ensures var n := |quantities|;
      fc == (quantities[n - 3] + quantities[n - 2] + quantities[n - 1]) / 3.0
  {
    var n := |quantities|;
    var last := Rolling(quantities, Window)[n - 1];
    Sum3(quantities[n - 3..n]);
    last.value
  }

  /** Only the last three quantities matter: older history never changes
      the forecast. */
  lemma ForecastIgnoresOlderHistory(older: seq<real>, recent: seq<real>)
    requires |recent| == Window
    ensures Forecast(older + recent) == Forecast(recent)
  {
    var all := older + recent;
    var n := |all|;
    assert all[n - 3] == recent[0];
    assert all[n - 2] == recent[1];
    assert all[n - 1] == recent[2];
  }

  /** The forecast lies between the smallest and the largest of the last
      three quantities; in particular non-negative quantities give a
      non-negative forecast. */
  lemma ForecastBounds(quantities: seq<real>, lo: real, hi: real)
    requires |quantities| >= Window
    requires forall i :: |quantities| - 3 <= i < |quantities| ==> lo <= quantities[i] <= hi
    ensures lo <= Forecast(quantities) <= hi
  {
    var n := |quantities|;
    var tail := quantities[n - 3..];
    forall i | 0 <= i < |tail|
      ensures lo <= tail[i] <= hi
    {
      assert tail[i] == quantities[n - 3 + i];
    }
    MeanBounds(tail, lo, hi);
    Sum3(tail);
  }
}
