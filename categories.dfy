/**
 * Sales per department (`aggregate_sales_by_category`): the sales grouped
 * by department, with the revenue, the units sold and the number of
 * distinct skus of each department, sorted by department name.
 */
module Categories {
  import opened Text
  import opened Tally
  import opened Sales

  /** One line of the category table. */
  datatype CategoryStats = CategoryStats(department: string, revenue: real, units: nat, uniqueProducts: nat)

  function Revenue(c: CategoryStats): real { c.revenue }

  /** The departments of the rows, each once, in ascending order. */
  function SortedDepartments(rows: seq<Row>): (ds: seq<string>)
    ensures StrictlyAscending(ds)
    ensures forall d :: d in ds <==> exists r :: r in rows && r.department == d
  {
    if |rows| == 0 then []
    else
      assert forall r :: r in rows <==> r == rows[0] || r in rows[1..];
      InsertSorted(rows[0].department, SortedDepartments(rows[1..]))
  }

  /** The aggregates of the rows of one department. */
  function StatsOf(rows: seq<Row>, d: string): CategoryStats {
    var g := Group(rows, Department, d);
    CategoryStats(d, Sum(g, Amount), SumNat(g, Quantity), |Keys(g, Sku)|)
  }

  /** One line per department of `ds`, in that order. */
  function CategoryTable(rows: seq<Row>, ds: seq<string>): (t: seq<CategoryStats>)
    ensures |t| == |ds|
    ensures forall i :: 0 <= i < |ds| ==> t[i] == StatsOf(rows, ds[i])
  {
    if |ds| == 0 then [] else [StatsOf(rows, ds[0])] + CategoryTable(rows, ds[1..])
  }

  /** The department column of a category table. */
  function Departments(t: seq<CategoryStats>): (ds: seq<string>)
    ensures |ds| == |t|
    ensures forall i :: 0 <= i < |t| ==> ds[i] == t[i].department
  {
    seq(|t|, i requires 0 <= i < |t| => t[i].department)
  }

  /** A department that has sales has at least one sku, and at most one per sale. */
  lemma UniqueProductsBounds(sales: seq<Row>, d: string)
    requires exists r :: r in sales && r.department == d
    ensures var g := Group(sales, Department, d); 1 <= |Keys(g, Sku)| <= |g|
  {
    var r :| r in sales && r.department == d;
    var g := Group(sales, Department, d);
    assert r in g;
    assert Sku(r) in Keys(g, Sku);
  }

  /**
   * `aggregate_sales_by_category`: one line per department that has sales,
   * ascending by department; revenue and units are the sums over the
   * department's sales, and its skus are counted once each, at least one
   * and at most one per sale.
   */
  function SalesByCategory(rows: seq<Row>): (t: seq<CategoryStats>)
    ensures StrictlyAscending(Departments(t))
    ensures forall d :: d in Departments(t) <==> exists r :: r in SaleRows(rows) && r.department == d
    ensures forall i :: 0 <= i < |t| ==>
      var g := Group(SaleRows(rows), Department, t[i].department);
      && t[i].revenue == Sum(g, Amount)
      && t[i].units == SumNat(g, Quantity)
      && t[i].uniqueProducts == |Keys(g, Sku)|
      && 1 <= t[i].uniqueProducts <= |g|
  {
    var sales := SaleRows(rows);
    var ds := SortedDepartments(sales);
    var t := CategoryTable(sales, ds);
    assert Departments(t) == ds;
    assert forall i :: 0 <= i < |t| ==> 1 <= t[i].uniqueProducts <= |Group(sales, Department, ds[i])| by {
      forall i | 0 <= i < |t| ensures 1 <= t[i].uniqueProducts <= |Group(sales, Department, ds[i])| {
        assert ds[i] in ds;
        UniqueProductsBounds(sales, ds[i]);
      }
    }
    t
  }

  /** Strictly ascending departments are distinct. */
  lemma AscendingDistinct(ds: seq<string>)
    requires StrictlyAscending(ds)
    ensures Distinct(ds)
  {
    forall i, j | 0 <= i < j < |ds| ensures ds[i] != ds[j] {
      if ds[i] == ds[j] {
        StrLessIrreflexive(ds[i]);
      }
    }
  }

  /** The revenue of distinct departments adds up to the sales of those departments. */
  lemma {:induction false} TableRevenueIsGroupSum(rows: seq<Row>, ds: seq<string>)
    requires Distinct(ds)
    ensures Sum(CategoryTable(rows, ds), Revenue) == Sum(GroupIn(rows, Department, SetOf(ds)), Amount)
  {
    if |ds| == 0 {
      SumGroupInNone(rows, Department, SetOf(ds), Amount);
    } else {
      var rest := ds[1..];
      assert Distinct(rest) by {
        forall i, j | 0 <= i < j < |rest| ensures rest[i] != rest[j] {
          assert rest[i] == ds[i + 1] && rest[j] == ds[j + 1];
        }
      }
      TableRevenueIsGroupSum(rows, rest);
      assert SetOf(ds) == {ds[0]} + SetOf(rest) by {
        assert forall d :: d in ds <==> d == ds[0] || d in rest;
      }
      assert ds[0] !in SetOf(rest) by {
        forall j | 0 <= j < |rest| ensures rest[j] != ds[0] {
          assert rest[j] == ds[j + 1];
        }
      }
      SumGroupInSplit(rows, Department, ds[0], SetOf(rest), Amount);
    }
  }

  /** Conservation: the revenue column sums to the amount of all sales. */
  lemma CategoryRevenueConservation(rows: seq<Row>)
    ensures Sum(SalesByCategory(rows), Revenue) == Sum(SaleRows(rows), Amount)
  {
    var sales := SaleRows(rows);
    var ds := SortedDepartments(sales);
    assert SalesByCategory(rows) == CategoryTable(sales, ds);
    AscendingDistinct(ds);
    TableRevenueIsGroupSum(sales, ds);
    SumGroupInAll(sales, Department, SetOf(ds), Amount);
  }
}
