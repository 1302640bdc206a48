/**
 * The stock report built from a turnover table (`get_inventory_insights`):
 * items whose unit difference exceeds 30% of the mean units sold, in either
 * direction, the five most and the five least profitable items, and a
 * summary of sums, counts and the mean margin.
 */
module Insights {
  import opened Wrappers
  import opened Tally
  import opened Sorting
  import opened Turnover

  /** The columns kept for the stock lists. */
  datatype StockLine = StockLine(sku: string, name: string, diff: int, sold: nat, received: nat)

  /** The columns kept for the profit lists. */
  datatype ProfitLine = ProfitLine(sku: string, name: string, profit: real, margin: Option<real>, revenue: real, cost: real)

  datatype Summary = Summary(
    totalRevenue: real,
    totalCosts: real,
    totalProfit: real,
    avgProfitability: Option<real>,
    itemsWithDeficit: nat,
    itemsWithExcess: nat,
    totalItems: nat)

  /**
   * The report. `overstockCandidates` holds the items sold well beyond
   * what was received (a possible deficit), `understockCandidates` the
   * items received well beyond what was sold (a possible excess): the
   * names are the report's own.
   */
  datatype Report = Report(
    overstockCandidates: seq<StockLine>,
    understockCandidates: seq<StockLine>,
    mostProfitable: seq<ProfitLine>,
    leastProfitable: seq<ProfitLine>,
    summary: Summary)

  function Revenue(it: Item): real { it.revenue }
  function Cost(it: Item): real { it.cost }
  function Profit(it: Item): real { it.profit }
  function Loss(it: Item): real { -it.profit }
  function SoldValue(it: Item): real { it.sold as real }

  function StockLineOf(it: Item): StockLine {
    StockLine(it.sku, it.name, it.diff, it.sold, it.received)
  }

  function ProfitLineOf(it: Item): ProfitLine {
    ProfitLine(it.sku, it.name, it.profit, it.margin, it.revenue, it.cost)
  }

  function StockLines(t: seq<Item>): (r: seq<StockLine>)
    ensures |r| == |t|
    ensures forall i :: 0 <= i < |t| ==> r[i] == StockLineOf(t[i])
  {
    seq(|t|, i requires 0 <= i < |t| => StockLineOf(t[i]))
  }

  function ProfitRows(t: seq<Item>): (r: seq<ProfitLine>)
    ensures |r| == |t|
    ensures forall i :: 0 <= i < |t| ==> r[i] == ProfitLineOf(t[i])
  {
    seq(|t|, i requires 0 <= i < |t| => ProfitLineOf(t[i]))
  }

  // ---- threshold classification ----

  /** A column of non-negative values sums to a non-negative total. */
  lemma {:induction false} SumNonNegative<T>(xs: seq<T>, value: T -> real)
    requires forall i :: 0 <= i < |xs| ==> value(xs[i]) >= 0.0
    ensures Sum(xs, value) >= 0.0
  {
    if |xs| > 0 {
      assert forall i :: 0 <= i < |xs[1..]| ==> value(xs[1..][i]) >= 0.0 by {
        forall i | 0 <= i < |xs[1..]| ensures value(xs[1..][i]) >= 0.0 {
          assert xs[1..][i] == xs[i + 1];
        }
      }
      SumNonNegative(xs[1..], value);
    }
  }

  /** The mean of the units sold; none for an empty table, where the mean is undefined. */
  function MeanSold(t: seq<Item>): (m: Option<real>)
    ensures m.None? <==> |t| == 0
    ensures m.Some? ==> m.value >= 0.0
  {
    if |t| == 0 then None
    else
      SumNonNegative(t, SoldValue);
      Some(Sum(t, SoldValue) / |t| as real)
  }

  /** 30% of the mean units sold. */
  function Threshold(t: seq<Item>): (th: Option<real>)
    ensures th.None? <==> |t| == 0
    ensures th.Some? ==> th.value >= 0.0
  {
    match MeanSold(t)
    case None => None
    case Some(m) => Some(m * 0.3)
  }

  /** The lines of t that satisfy `keep`, in order, each as often as it occurs in t. */
  function Where(t: seq<Item>, keep: Item -> bool): (r: seq<Item>)
    ensures |r| <= |t|
    ensures forall x :: multiset(r)[x] == if keep(x) then multiset(t)[x] else 0
    ensures forall x :: x in r <==> x in t && keep(x)
  {
    if |t| == 0 then []
    else
      assert t == [t[0]] + t[1..];
      var r := (if keep(t[0]) then [t[0]] else []) + Where(t[1..], keep);
      assert forall x :: x in r <==> multiset(r)[x] > 0;
      assert forall x :: x in t <==> multiset(t)[x] > 0;
      r
  }

  /** Filtering works line by line, so it keeps the table's order: it distributes over concatenation. */
  lemma {:induction false} WhereAppend(a: seq<Item>, b: seq<Item>, keep: Item -> bool)
    ensures Where(a + b, keep) == Where(a, keep) + Where(b, keep)
    decreases |a|
  {
    if |a| == 0 {
      assert a + b == b;
    } else {
      assert (a + b)[1..] == a[1..] + b;
      WhereAppend(a[1..], b, keep);
    }
  }

  /** The line test of the deficit list: difference above the threshold. */
  function Above(th: real): Item -> bool {
    (x: Item) => x.diff as real > th
  }

  /** The line test of the excess list: difference below minus the threshold. */
  function Below(th: real): Item -> bool {
    (x: Item) => (x.diff as real) < -th
  }

  /**
   * The items sold well beyond what was received: difference above the
   * threshold. No item of an empty table qualifies (the comparison with an
   * undefined mean fails).
   */
  function Deficit(t: seq<Item>): (r: seq<Item>)
    ensures forall x ::
      multiset(r)[x] == if Threshold(t).Some? && x.diff as real > Threshold(t).value then multiset(t)[x] else 0
    ensures forall x :: x in r <==> x in t && Threshold(t).Some? && x.diff as real > Threshold(t).value
    ensures Threshold(t).Some? ==> r == Where(t, Above(Threshold(t).value))
  {
    match Threshold(t)
    case None => []
    case Some(th) => Where(t, Above(th))
  }

  /** The items received well beyond what was sold: difference below minus the threshold. */
  function Excess(t: seq<Item>): (r: seq<Item>)
    ensures forall x ::
      multiset(r)[x] == if Threshold(t).Some? && (x.diff as real) < -Threshold(t).value then multiset(t)[x] else 0
    ensures forall x :: x in r <==> x in t && Threshold(t).Some? && (x.diff as real) < -Threshold(t).value
    ensures Threshold(t).Some? ==> r == Where(t, Below(Threshold(t).value))
  {
    match Threshold(t)
    case None => []
    case Some(th) => Where(t, Below(th))
  }

  /** A deficit item was sold beyond what was received, an excess item the reverse; no item is both. */
  lemma DeficitExcessDisjoint(t: seq<Item>)
    ensures forall x :: x in Deficit(t) ==> x.diff > 0
    ensures forall x :: x in Excess(t) ==> x.diff < 0
    ensures forall x :: !(x in Deficit(t) && x in Excess(t))
  {
  }

  // ---- profit ranking ----

  /**
   * `nlargest(5, profit)`: the five most profitable items, first occurrence
   * first among ties; no item left out is more profitable than one kept.
   */
  function MostProfitable(t: seq<Item>): (r: seq<Item>)
    ensures |r| == if |t| < 5 then |t| else 5
    ensures SortedDesc(r, Profit)
    ensures multiset(r) <= multiset(t)
    ensures forall y :: y in multiset(t) - multiset(r) ==> forall i :: 0 <= i < |r| ==> y.profit <= r[i].profit
  {
    TopBy(t, Profit, 5)
  }

  /**
   * `nsmallest(5, profit)`: the five least profitable items, first occurrence
   * first among ties; no item left out is less profitable than one kept.
   */
  function LeastProfitable(t: seq<Item>): (r: seq<Item>)
    ensures |r| == if |t| < 5 then |t| else 5
    ensures forall i, j :: 0 <= i < j < |r| ==> r[i].profit <= r[j].profit
    ensures multiset(r) <= multiset(t)
    ensures forall y :: y in multiset(t) - multiset(r) ==> forall i :: 0 <= i < |r| ==> y.profit >= r[i].profit
  {
    TopBy(t, Loss, 5)
  }

  /** The most profitable line has the largest profit of the table, the least profitable the smallest. */
  lemma ProfitExtremes(t: seq<Item>, x: Item)
    requires x in t
    ensures |MostProfitable(t)| > 0 && MostProfitable(t)[0].profit >= x.profit
    ensures |LeastProfitable(t)| > 0 && LeastProfitable(t)[0].profit <= x.profit
  {
    SortedFirstIsMax(t, Profit, x);
    SortedFirstIsMax(t, Loss, x);
  }

  /**
   * When every item has the same profit, both lists are the first five
   * items: the two lists overlap, however long the table.
   */
  lemma EqualProfitsOverlap(t: seq<Item>, p: real)
    requires forall i :: 0 <= i < |t| ==> t[i].profit == p
    ensures MostProfitable(t) == LeastProfitable(t) == Head(t, 5)
  {
    SortEqualKeys(t, Profit, p);
    assert forall i :: 0 <= i < |t| ==> Loss(t[i]) == -p;
    SortEqualKeys(t, Loss, -p);
  }

  // ---- summary ----

  /** The margins of the lines that have one. */
  function Margins(t: seq<Item>): (ms: seq<real>)
    ensures |ms| <= |t|
    ensures |ms| == 0 <==> forall i :: 0 <= i < |t| ==> t[i].margin.None?
  {
    if |t| == 0 then []
    else
      var rest := Margins(t[1..]);
      assert forall i :: 1 <= i < |t| ==> t[i] == t[1..][i - 1];
      (if t[0].margin.Some? then [t[0].margin.value] else []) + rest
  }

  function Value(x: real): real { x }

  /** The mean margin, skipping the lines without one; none when no line has one. */
  function MeanMargin(t: seq<Item>): (m: Option<real>)
    ensures m.None? <==> forall i :: 0 <= i < |t| ==> t[i].margin.None?
  {
    var ms := Margins(t);
    if |ms| == 0 then None else Some(Sum(ms, Value) / |ms| as real)
  }

  /** The summary statistics: the three money column sums, the mean margin and the counts. */
  function SummaryOf(t: seq<Item>): (s: Summary)
    ensures s.totalRevenue == Sum(t, Revenue)
    ensures s.totalCosts == Sum(t, Cost)
    ensures s.totalProfit == Sum(t, Profit)
    ensures s.avgProfitability == MeanMargin(t)
    ensures s.totalItems == |t|
    ensures s.itemsWithDeficit == |Deficit(t)| && s.itemsWithExcess == |Excess(t)|
    ensures s.avgProfitability.None? <==> forall i :: 0 <= i < |t| ==> t[i].margin.None?
  {
    Summary(Sum(t, Revenue), Sum(t, Cost), Sum(t, Profit), MeanMargin(t),
            |Deficit(t)|, |Excess(t)|, |t|)
  }

  /**
   * `get_inventory_insights`: the two stock lists, the two profit lists
   * and the summary, with the counts of the summary equal to the lengths
   * of the stock lists.
   */
  function InventoryInsights(t: seq<Item>): (r: Report)
    ensures r.overstockCandidates == StockLines(Deficit(t))
    ensures r.understockCandidates == StockLines(Excess(t))
    ensures r.mostProfitable == ProfitRows(MostProfitable(t))
    ensures r.leastProfitable == ProfitRows(LeastProfitable(t))
    ensures r.summary == SummaryOf(t)
    ensures |r.overstockCandidates| == r.summary.itemsWithDeficit
    ensures |r.understockCandidates| == r.summary.itemsWithExcess
    ensures r.summary.totalItems == |t|
    ensures forall x :: x in r.overstockCandidates ==> x.diff > 0
    ensures forall x :: x in r.understockCandidates ==> x.diff < 0
    ensures forall x :: !(x in r.overstockCandidates && x in r.understockCandidates)
    ensures |r.mostProfitable| == |r.leastProfitable| == if |t| < 5 then |t| else 5
  {
    DeficitExcessDisjoint(t);
    StockLinesKeepSign(Deficit(t));
    StockLinesKeepSign(Excess(t));
    Report(StockLines(Deficit(t)), StockLines(Excess(t)),
           ProfitRows(MostProfitable(t)), ProfitRows(LeastProfitable(t)), SummaryOf(t))
  }

  /** A stock line carries the difference of the item it was taken from, so its sign too. */
  lemma StockLinesKeepSign(items: seq<Item>)
    ensures (forall y :: y in items ==> y.diff > 0) ==> forall x :: x in StockLines(items) ==> x.diff > 0
    ensures (forall y :: y in items ==> y.diff < 0) ==> forall x :: x in StockLines(items) ==> x.diff < 0
  {
    var lines := StockLines(items);
    forall x | x in lines ensures exists y :: y in items && y.diff == x.diff {
      var i :| 0 <= i < |lines| && lines[i] == x;
      assert items[i] in items;
    }
  }

  /** Summing consistent lines: total profit is total revenue minus total costs. */
  lemma {:induction false} TotalProfit(t: seq<Item>)
    requires forall i :: 0 <= i < |t| ==> Consistent(t[i])
    ensures Sum(t, Profit) == Sum(t, Revenue) - Sum(t, Cost)
  {
    if |t| > 0 {
      assert forall i :: 0 <= i < |t[1..]| ==> Consistent(t[1..][i]) by {
        forall i | 0 <= i < |t[1..]| ensures Consistent(t[1..][i]) {
          assert t[1..][i] == t[i + 1];
        }
      }
      TotalProfit(t[1..]);
      assert Consistent(t[0]);
    }
  }

  /** On a turnover table the summary's profit is its revenue minus its costs. */
  lemma SummaryProfit(t: seq<Item>)
    requires forall i :: 0 <= i < |t| ==> Consistent(t[i])
    ensures InventoryInsights(t).summary.totalProfit
         == InventoryInsights(t).summary.totalRevenue - InventoryInsights(t).summary.totalCosts
  {
    TotalProfit(t);
  }

  /** A column whose values lie in [lo, hi] sums to between n·lo and n·hi. */
  lemma {:induction false} SumWithin(xs: seq<real>, lo: real, hi: real)
    requires forall i :: 0 <= i < |xs| ==> lo <= xs[i] <= hi
    ensures |xs| as real * lo <= Sum(xs, Value) <= |xs| as real * hi
  {
    if |xs| > 0 {
      assert forall i :: 0 <= i < |xs[1..]| ==> lo <= xs[1..][i] <= hi by {
        forall i | 0 <= i < |xs[1..]| ensures lo <= xs[1..][i] <= hi {
          assert xs[1..][i] == xs[i + 1];
        }
      }
      SumWithin(xs[1..], lo, hi);
      assert |xs| as real * lo == lo + |xs[1..]| as real * lo;
      assert |xs| as real * hi == hi + |xs[1..]| as real * hi;
    }
  }

  /** A total of n values in [lo, hi] has its mean in [lo, hi]. */
  lemma MeanWithin(total: real, n: real, lo: real, hi: real)
    requires n > 0.0
    requires n * lo <= total <= n * hi
    ensures lo <= total / n <= hi
  {
    var q := total / n;
    assert q * n == total;
    assert (q - lo) * n >= 0.0;
    assert (hi - q) * n >= 0.0;
  }

  /** Every margin in [lo, hi] puts the mean margin in [lo, hi] too. */
  lemma MeanMarginWithin(t: seq<Item>, lo: real, hi: real)
    requires forall i :: 0 <= i < |t| && t[i].margin.Some? ==> lo <= t[i].margin.value <= hi
    ensures MeanMargin(t).Some? ==> lo <= MeanMargin(t).value <= hi
  {
    var ms := Margins(t);
    MarginsWithin(t, lo, hi);
    if |ms| > 0 {
      SumWithin(ms, lo, hi);
      MeanWithin(Sum(ms, Value), |ms| as real, lo, hi);
    }
  }

  /** The margins kept by `Margins` are margins of the table. */
  lemma {:induction false} MarginsWithin(t: seq<Item>, lo: real, hi: real)
    requires forall i :: 0 <= i < |t| && t[i].margin.Some? ==> lo <= t[i].margin.value <= hi
    ensures forall i :: 0 <= i < |Margins(t)| ==> lo <= Margins(t)[i] <= hi
  {
    if |t| > 0 {
      assert forall i :: 0 <= i < |t[1..]| && t[1..][i].margin.Some? ==> lo <= t[1..][i].margin.value <= hi by {
        forall i | 0 <= i < |t[1..]| && t[1..][i].margin.Some? ensures lo <= t[1..][i].margin.value <= hi {
          assert t[1..][i] == t[i + 1];
        }
      }
      MarginsWithin(t[1..], lo, hi);
    }
  }
}
