/** Sales records, the columns the pricing rule reads from them, and the
    order-preserving product filter the dashboard applies before forecasting. */
module Sales {

  /** One row of the sales table. `date` is carried but never used in any
      computation. */
  datatype SalesRecord = SalesRecord(
    product: string,
    date: string,
    price: real,
    quantity: real,
    cost: real)

  /** The `price` column, row by row. */
  function Prices(rows: seq<SalesRecord>): seq<real>
  {
    seq(|rows|, i requires 0 <= i < |rows| => rows[i].price)
  }

  /** The `quantity` column, row by row. */
  function Quantities(rows: seq<SalesRecord>): seq<real>
  {
    seq(|rows|, i requires 0 <= i < |rows| => rows[i].quantity)
  }

  /** Sum of a column, folded from the last element backwards. */
  function Sum(xs: seq<real>): real
  {
    if |xs| == 0 then 0.0 else Sum(xs[..|xs| - 1]) + xs[|xs| - 1]
  }

  /** Arithmetic mean, as pandas `Series.mean` on a column without gaps:
      the value whose `|xs|` copies add up to the column's sum. */
  function Mean(xs: seq<real>): (m: real)
    requires |xs| > 0
    ensures m * (|xs| as real) == Sum(xs)
  {
    Sum(xs) / (|xs| as real)
  }

  lemma {:induction false} SumBounds(xs: seq<real>, lo: real, hi: real)
    requires forall i :: 0 <= i < |xs| ==> lo <= xs[i] <= hi
    ensures (|xs| as real) * lo <= Sum(xs) <= (|xs| as real) * hi
  {
    if |xs| > 0 {
      var n := |xs| - 1;
      SumBounds(xs[..n], lo, hi);
      assert (|xs| as real) * lo == (n as real) * lo + lo;
      assert (|xs| as real) * hi == (n as real) * hi + hi;
    }
  }

  /** A mean lies between any lower and upper bound of its values. */
  lemma MeanBounds(xs: seq<real>, lo: real, hi: real)
    requires |xs| > 0
    requires forall i :: 0 <= i < |xs| ==> lo <= xs[i] <= hi
    ensures lo <= Mean(xs) <= hi
  {
    SumBounds(xs, lo, hi);
    var n := |xs| as real;
    assert Sum(xs) / n >= lo by {
      assert Sum(xs) >= n * lo;
    }
    assert Sum(xs) / n <= hi by {
      assert Sum(xs) <= n * hi;
    }
  }

  /** The mean of a column whose values are all equal is that value. */
  lemma MeanOfConstant(xs: seq<real>, v: real)
    requires |xs| > 0
    requires forall i :: 0 <= i < |xs| ==> xs[i] == v
    ensures Mean(xs) == v
  {
    MeanBounds(xs, v, v);
  }

  /** `df[df["product"] == product]`: the rows of one product, in their
      original order. */
  function FilterProduct(rows: seq<SalesRecord>, product: string): (own: seq<SalesRecord>)
    ensures |own| <= |rows|
    ensures forall r :: r in own <==> r in rows && r.product == product
  {
    if |rows| == 0 then []
    else
      (if rows[0].product == product then [rows[0]] else [])
      + FilterProduct(rows[1..], product)
  }

  /** Filtering distributes over concatenation: the relative order of the
      kept rows is the order they had in the table. */
  lemma {:induction false} FilterAppend(a: seq<SalesRecord>, b: seq<SalesRecord>, product: string)
    ensures FilterProduct(a + b, product) == FilterProduct(a, product) + FilterProduct(b, product)
  {
    if |a| == 0 {
      assert a + b == b;
    } else {
      assert (a + b)[1..] == a[1..] + b;
      FilterAppend(a[1..], b, product);
    }
  }

  /** A table whose rows all belong to `product` passes the filter unchanged. */
  lemma {:induction false} FilterKeepsAll(rows: seq<SalesRecord>, product: string)
    requires forall i :: 0 <= i < |rows| ==> rows[i].product == product
    ensures FilterProduct(rows, product) == rows
  {
    if |rows| > 0 {
      FilterKeepsAll(rows[1..], product);
      assert [rows[0]] + rows[1..] == rows;
    }
  }

  /** Filtering twice by the same product changes nothing. */
  lemma {:induction false} FilterIdempotent(rows: seq<SalesRecord>, product: string)
    ensures FilterProduct(FilterProduct(rows, product), product) == FilterProduct(rows, product)
  {
    var own := FilterProduct(rows, product);
    forall i | 0 <= i < |own|
      ensures own[i].product == product
    {
      assert own[i] in own;
    }
    FilterKeepsAll(own, product);
  }

  /** `j` is the index of the last row of `rows` that belongs to `product`. */
  ghost predicate LastOfProduct(rows: seq<SalesRecord>, product: string, j: int)
  {
    && 0 <= j < |rows|
    && rows[j].product == product
    && forall k :: j < k < |rows| ==> rows[k].product != product
  }

  /** The last row of the filtered table (whose `cost` the dashboard uses) is
      the last row of the whole table that belongs to `product`. */
  lemma {:induction false} FilterLast(rows: seq<SalesRecord>, product: string)
    requires |FilterProduct(rows, product)| > 0
    ensures exists j :: (LastOfProduct(rows, product, j)
      && rows[j] == FilterProduct(rows, product)[|FilterProduct(rows, product)| - 1])
  {
    var n := |rows| - 1;
    var init := rows[..n];
    assert rows == init + [rows[n]];
    FilterAppend(init, [rows[n]], product);
    assert [rows[n]][1..] == [];
    var own := FilterProduct(rows, product);
    if rows[n].product == product {
      assert own == FilterProduct(init, product) + [rows[n]];
      assert LastOfProduct(rows, product, n);
    } else {
      assert own == FilterProduct(init, product);
      FilterLast(init, product);
      var j :| LastOfProduct(init, product, j) && init[j] == own[|own| - 1];
      LastExtends(init, rows[n], product, j);
      assert rows[j] == own[|own| - 1];
    }
  }

  lemma LastExtends(init: seq<SalesRecord>, last: SalesRecord, product: string, j: int)
    requires LastOfProduct(init, product, j)
    requires last.product != product
    ensures LastOfProduct(init + [last], product, j)
  {
    var rows := init + [last];
    forall k | j < k < |rows|
      ensures rows[k].product != product
    {
      if k < |init| {
        assert rows[k] == init[k];
      }
    }
  }
}
