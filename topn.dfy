/**
 * The best-selling products (`get_top_n_products`): the sales, optionally
 * of one day, summed per product name by units or by revenue, sorted by
 * that sum, largest first, and cut to the first n lines.
 */
module TopProducts {
  import opened Wrappers
  import opened Tally
  import opened Sales
  import opened Sorting

  /** What a product is ranked by: units sold or revenue. */
  datatype Metric = QuantityMetric | RevenueMetric

  /** The metric names the report accepts; any other name has no metric. */
  function ParseMetric(metric: string): (m: Option<Metric>)
    ensures m.None? <==> metric != "quantity" && metric != "revenue"
    ensures m == Some(QuantityMetric) <==> metric == "quantity"
  {
    if metric == "quantity" then Some(QuantityMetric)
    else if metric == "revenue" then Some(RevenueMetric)
    else None
  }

  /** The column a metric sums. */
  function MetricColumn(m: Metric): Row -> real {
    match m
    case QuantityMetric => QuantityValue
    case RevenueMetric => Amount
  }

  /** One line of the ranking: a product name and its summed metric. */
  datatype ProductTotal = ProductTotal(name: string, total: real)

  function LineTotal(p: ProductTotal): real { p.total }

  /** The name column of a ranking. */
  function Names(ps: seq<ProductTotal>): (ns: seq<string>)
    ensures |ns| == |ps|
    ensures forall i :: 0 <= i < |ps| ==> ns[i] == ps[i].name
  {
    seq(|ps|, i requires 0 <= i < |ps| => ps[i].name)
  }

  /** The rows of one day, or all rows when no day is given (`date='all'`). */
  function OnDate(rows: seq<Row>, date: Option<int>): (s: seq<Row>)
    ensures date.None? ==> s == rows
    ensures forall r :: multiset(s)[r] == if date.None? || r.date == date.value then multiset(rows)[r] else 0
    ensures forall r :: r in s <==> r in rows && (date.None? || r.date == date.value)
  {
    if date.None? || |rows| == 0 then rows
    else
      assert rows == [rows[0]] + rows[1..];
      var s := (if rows[0].date == date.value then [rows[0]] else []) + OnDate(rows[1..], date);
      assert forall r :: r in s <==> multiset(s)[r] > 0;
      assert forall r :: r in rows <==> multiset(rows)[r] > 0;
      s
  }

  /** The sum of the metric over the rows of one product. */
  function ProductSum(rows: seq<Row>, value: Row -> real, name: string): real {
    Sum(Group(rows, Name, name), value)
  }

  /** `groupby(name).agg(sum)`: one line per product name of the rows. */
  function ProductTotals(rows: seq<Row>, value: Row -> real): (t: seq<ProductTotal>)
    ensures Names(t) == Keys(rows, Name)
    ensures forall i :: 0 <= i < |t| ==> t[i].total == ProductSum(rows, value, t[i].name)
  {
    var ks := Keys(rows, Name);
    seq(|ks|, i requires 0 <= i < |ks| => ProductTotal(ks[i], ProductSum(rows, value, ks[i])))
  }

  /** All products, largest sum first. */
  function Ranked(rows: seq<Row>, value: Row -> real): (s: seq<ProductTotal>)
    ensures SortedDesc(s, LineTotal)
    ensures multiset(s) == multiset(ProductTotals(rows, value))
  {
    SortDesc(ProductTotals(rows, value), LineTotal)
  }

  /** The rows the ranking is built from: the sales, of the given day if any. */
  function Selected(rows: seq<Row>, date: Option<int>): seq<Row> {
    OnDate(SaleRows(rows), date)
  }

  /** `get_top_n_products`: None for an unknown metric; otherwise the first n lines of the ranking. */
  function TopProducts(rows: seq<Row>, n: int, metric: string, date: Option<int>): (r: Option<seq<ProductTotal>>)
    ensures r.None? <==> metric != "quantity" && metric != "revenue"
    ensures r.Some? ==> |r.value| == HeadLength(|Keys(Selected(rows, date), Name)|, n)
    ensures r.Some? ==> SortedDesc(r.value, LineTotal)
  {
    match ParseMetric(metric)
    case None => None
    case Some(m) =>
      var s := Ranked(Selected(rows, date), MetricColumn(m));
      HeadSorted(s, n, LineTotal);
      Some(Head(s, n))
  }

  // ---- the ranking ----

  /** Every line of the ranking is a product of the rows with its summed metric. */
  lemma RankedLines(rows: seq<Row>, value: Row -> real, p: ProductTotal)
    requires p in Ranked(rows, value)
    ensures p.name in Keys(rows, Name)
    ensures p.total == ProductSum(rows, value, p.name)
  {
    var t := ProductTotals(rows, value);
    assert p in multiset(t);
    var i :| 0 <= i < |t| && t[i] == p;
    assert Names(t)[i] == p.name;
  }

  /** Every product of the rows has its line in the ranking. */
  lemma RankedCovers(rows: seq<Row>, value: Row -> real, name: string)
    requires name in Keys(rows, Name)
    ensures ProductTotal(name, ProductSum(rows, value, name)) in Ranked(rows, value)
  {
    var t := ProductTotals(rows, value);
    var ks := Keys(rows, Name);
    var i :| 0 <= i < |ks| && ks[i] == name;
    assert Names(t)[i] == name;
    assert t[i] == ProductTotal(name, ProductSum(rows, value, name));
    assert t[i] in multiset(t);
  }

  /** No product appears twice in the ranking. */
  lemma RankedNamesDistinct(rows: seq<Row>, value: Row -> real)
    ensures Distinct(Names(Ranked(rows, value)))
  {
    var t, s := ProductTotals(rows, value), Ranked(rows, value);
    assert Distinct(t) by {
      forall i, j | 0 <= i < j < |t| ensures t[i] != t[j] {
        assert Names(t)[i] != Names(t)[j];
      }
    }
    PermutationDistinct(t, s);
    forall i, j | 0 <= i < j < |s| ensures Names(s)[i] != Names(s)[j] {
      RankedLines(rows, value, s[i]);
      RankedLines(rows, value, s[j]);
    }
  }

  // ---- the top n ----

  /** The top lines are distinct products, each with its summed metric over the selected rows. */
  lemma TopProductsLines(rows: seq<Row>, n: int, metric: string, date: Option<int>)
    requires metric == "quantity" || metric == "revenue"
    ensures var top, sel := TopProducts(rows, n, metric, date).value, Selected(rows, date);
      var value := MetricColumn(ParseMetric(metric).value);
      && Distinct(Names(top))
      && forall i :: 0 <= i < |top| ==>
           top[i].name in Keys(sel, Name) && top[i].total == ProductSum(sel, value, top[i].name)
  {
    var sel, value := Selected(rows, date), MetricColumn(ParseMetric(metric).value);
    var s := Ranked(sel, value);
    var top := TopProducts(rows, n, metric, date).value;
    assert top == s[..|top|];
    RankedNamesDistinct(sel, value);
    forall i, j | 0 <= i < j < |top| ensures Names(top)[i] != Names(top)[j] {
      assert Names(s)[i] == Names(top)[i] && Names(s)[j] == Names(top)[j];
    }
    forall i | 0 <= i < |top| ensures top[i].name in Keys(sel, Name) && top[i].total == ProductSum(sel, value, top[i].name) {
      assert top[i] == s[i];
      RankedLines(sel, value, s[i]);
    }
  }

  /** In a ranking, a line whose name is not among the first k lines totals at most line k. */
  lemma BelowPrefix(s: seq<ProductTotal>, k: int, line: ProductTotal)
    requires SortedDesc(s, LineTotal)
    requires 0 < k <= |s|
    requires line in s
    requires line.name !in Names(s[..k])
    ensures line.total <= s[k - 1].total
  {
    var j :| 0 <= j < |s| && s[j] == line;
    assert forall i :: 0 <= i < k ==> s[i].name != line.name by {
      forall i | 0 <= i < k ensures s[i].name != line.name {
        assert Names(s[..k])[i] == s[i].name;
      }
    }
    assert k - 1 < j;
  }

  /** A product left out of the top sums to at most the last kept line. */
  lemma TopProductsOmitted(rows: seq<Row>, n: int, metric: string, date: Option<int>, name: string)
    requires metric == "quantity" || metric == "revenue"
    requires name in Keys(Selected(rows, date), Name)
    requires name !in Names(TopProducts(rows, n, metric, date).value)
    requires |TopProducts(rows, n, metric, date).value| > 0
    ensures var top := TopProducts(rows, n, metric, date).value;
      ProductSum(Selected(rows, date), MetricColumn(ParseMetric(metric).value), name) <= top[|top| - 1].total
  {
    var sel, value := Selected(rows, date), MetricColumn(ParseMetric(metric).value);
    assert TopProducts(rows, n, metric, date).value == Head(Ranked(sel, value), n);
    HeadOmitted(sel, value, n, name);
  }

  /** The ranking cut to `head(n)` leaves out no product with a larger sum than its last line. */
  lemma HeadOmitted(sel: seq<Row>, value: Row -> real, n: int, name: string)
    requires name in Keys(sel, Name)
    requires name !in Names(Head(Ranked(sel, value), n))
    requires |Head(Ranked(sel, value), n)| > 0
    ensures var top := Head(Ranked(sel, value), n);
      ProductSum(sel, value, name) <= top[|top| - 1].total
  {
    var s := Ranked(sel, value);
    var top := Head(s, n);
    RankedCovers(sel, value, name);
    BelowPrefix(s, |top|, ProductTotal(name, ProductSum(sel, value, name)));
  }
}
