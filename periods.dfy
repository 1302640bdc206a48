/**
 * Revenue and profit per period (`calculate_revenue_by_period`,
 * `calculate_profit_by_period`). `pd.Grouper(key=date, freq=...)` bins the
 * rows on a regular grid and reports every bin from the first occupied one
 * to the last, an empty bin with sum 0; a bin is reported under its label.
 *
 * The tables are built over an arbitrary grid — a bin key per row and a
 * label date per bin — and the three pandas grids of Calendar are plugged in
 * by the operations at the end.
 */
module Periods {
  import opened Wrappers
  import opened Text
  import opened Tally
  import opened Sales
  import opened Calendar

  /** One line of a per-period table: the bin's label date and its sum. */
  datatype PeriodTotal = PeriodTotal(date: int, total: real)

  function TotalOf(t: PeriodTotal): real { t.total }

  predicate DatesAscending(t: seq<PeriodTotal>) {
    forall i, j :: 0 <= i < j < |t| ==> t[i].date < t[j].date
  }

  predicate Increasing(ks: seq<int>) {
    forall i, j :: 0 <= i < j < |ks| ==> ks[i] < ks[j]
  }

  /** Later bins carry later label dates. */
  ghost predicate LabelsIncrease(labelOf: int -> int) {
    forall a, b :: a < b ==> labelOf(a) < labelOf(b)
  }

  // ---- the pandas grids ----

  /** The grouping key of granularity p: the bin of the row's date. */
  function BinKey(p: Period): Row -> int {
    (r: Row) => BinIndex(p, r.date)
  }

  /** The label date of each bin of granularity p. */
  function Label(p: Period): int -> int {
    (k: int) => BinLabel(p, k)
  }

  lemma PandasLabelsIncrease(p: Period)
    ensures LabelsIncrease(Label(p))
  {
    forall a, b | a < b ensures Label(p)(a) < Label(p)(b) {
      BinLabelIncreasing(p, a, b);
    }
  }

  // ---- binning on a grid ----

  /** The sum of the amounts of the rows in bin k. */
  function BinTotal(rows: seq<Row>, key: Row -> int, k: int): real {
    Sum(Group(rows, key, k), Amount)
  }

  /** The first occupied bin. */
  function FirstBin(rows: seq<Row>, key: Row -> int): (k: int)
    requires |rows| > 0
    ensures forall r :: r in rows ==> k <= key(r)
    ensures exists r :: r in rows && key(r) == k
  {
    if |rows| == 1 then key(rows[0])
    else
      var rest := FirstBin(rows[1..], key);
      assert forall r :: r in rows ==> r == rows[0] || r in rows[1..];
      if key(rows[0]) <= rest then key(rows[0]) else rest
  }

  /** The last occupied bin. */
  function LastBin(rows: seq<Row>, key: Row -> int): (k: int)
    requires |rows| > 0
    ensures forall r :: r in rows ==> key(r) <= k
    ensures exists r :: r in rows && key(r) == k
  {
    if |rows| == 1 then key(rows[0])
    else
      var rest := LastBin(rows[1..], key);
      assert forall r :: r in rows ==> r == rows[0] || r in rows[1..];
      if key(rows[0]) >= rest then key(rows[0]) else rest
  }

  /** Bin k lies between the first and the last occupied bin. */
  predicate InSpan(rows: seq<Row>, key: Row -> int, k: int) {
    |rows| > 0 && FirstBin(rows, key) <= k <= LastBin(rows, key)
  }

  /** A bin outside the span holds no row, so its sum is 0. */
  lemma OutsideSpanIsZero(rows: seq<Row>, key: Row -> int, k: int)
    requires !InSpan(rows, key, k)
    ensures BinTotal(rows, key, k) == 0.0
  {
    SumGroupInNone(rows, key, {k}, Amount);
  }

  /** No rows: every bin sums to 0. */
  lemma NoRowsZero(key: Row -> int, k: int)
    ensures BinTotal([], key, k) == 0.0
  {
    assert Group([], key, k) == [];
  }

  /** The grouped sums, one per bin from the first to the last occupied one. */
  function DenseBins(rows: seq<Row>, key: Row -> int): (m: map<int, real>)
    ensures forall k :: k in m <==> InSpan(rows, key, k)
    ensures forall k :: k in m ==> m[k] == BinTotal(rows, key, k)
  {
    if |rows| == 0 then map[]
    else map k | FirstBin(rows, key) <= k <= LastBin(rows, key) :: BinTotal(rows, key, k)
  }

  /** The bins lo, lo + 1, ..., hi. */
  function Range(lo: int, hi: int): (ks: seq<int>)
    ensures |ks| == if lo <= hi then hi - lo + 1 else 0
    ensures forall i :: 0 <= i < |ks| ==> ks[i] == lo + i
    decreases hi - lo
  {
    if lo > hi then [] else [lo] + Range(lo + 1, hi)
  }

  /** Every bin from the first to the last occupied one, ascending. */
  function SpanBins(rows: seq<Row>, key: Row -> int): (ks: seq<int>)
    ensures Increasing(ks)
    ensures forall k :: k in ks <==> InSpan(rows, key, k)
  {
    if |rows| == 0 then []
    else
      var lo := FirstBin(rows, key);
      var ks := Range(lo, LastBin(rows, key));
      assert forall k :: InSpan(rows, key, k) ==> ks[k - lo] == k;
      ks
  }

  /** The keys of s between lo and hi, ascending. */
  function AscendingKeys(s: set<int>, lo: int, hi: int): (ks: seq<int>)
    ensures Increasing(ks)
    ensures forall k :: k in ks <==> k in s && lo <= k <= hi
    decreases hi - lo
  {
    if lo > hi then []
    else
      var rest := AscendingKeys(s, lo + 1, hi);
      var ks := (if lo in s then [lo] else []) + rest;
      assert Increasing(ks) by {
        forall i, j | 0 <= i < j < |ks| ensures ks[i] < ks[j] {
          if lo in s && i == 0 {
            assert ks[j] in rest;
          }
        }
      }
      ks
  }

  // ---- tables ----

  /** The table of the bins `ks` of m, each under its label. */
  function ToTable(labelOf: int -> int, m: map<int, real>, ks: seq<int>): (t: seq<PeriodTotal>)
    requires forall i :: 0 <= i < |ks| ==> ks[i] in m
    ensures |t| == |ks|
    ensures forall i :: 0 <= i < |ks| ==> t[i] == PeriodTotal(labelOf(ks[i]), m[ks[i]])
  {
    if |ks| == 0 then []
    else
      [PeriodTotal(labelOf(ks[0]), m[ks[0]])] + ToTable(labelOf, m, ks[1..])
  }

  /** Ascending bins give ascending label dates. */
  lemma LabelsAscending(labelOf: int -> int, m: map<int, real>, ks: seq<int>)
    requires LabelsIncrease(labelOf)
    requires forall i :: 0 <= i < |ks| ==> ks[i] in m
    requires Increasing(ks)
    ensures DatesAscending(ToTable(labelOf, m, ks))
  {
  }

  /**
   * The dense per-bin table of a set of rows (`groupby(pd.Grouper(...)).sum()`
   * after `reset_index`): line i is the i-th bin of the span with its sum.
   */
  function BinTable(rows: seq<Row>, key: Row -> int, labelOf: int -> int): (t: seq<PeriodTotal>)
    requires LabelsIncrease(labelOf)
    ensures DatesAscending(t)
    ensures |t| == |SpanBins(rows, key)|
    ensures forall i :: 0 <= i < |t| ==>
      var k := SpanBins(rows, key)[i]; t[i] == PeriodTotal(labelOf(k), BinTotal(rows, key, k))
  {
    var m, ks := DenseBins(rows, key), SpanBins(rows, key);
    LabelsAscending(labelOf, m, ks);
    ToTable(labelOf, m, ks)
  }

  /**
   * A table whose bin k holds the sum of a's rows minus the sum of b's rows
   * in bin k sums to the difference of the rows of a and of b in its bins.
   */
  lemma {:induction false} TableSumIsGroupDifference(
    a: seq<Row>, b: seq<Row>, key: Row -> int, labelOf: int -> int, m: map<int, real>, ks: seq<int>)
    requires Increasing(ks)
    requires forall i :: 0 <= i < |ks| ==> ks[i] in m && m[ks[i]] == BinTotal(a, key, ks[i]) - BinTotal(b, key, ks[i])
    ensures Sum(ToTable(labelOf, m, ks), TotalOf)
         == Sum(GroupIn(a, key, SetOf(ks)), Amount) - Sum(GroupIn(b, key, SetOf(ks)), Amount)
  {
    if |ks| == 0 {
      assert SetOf(ks) == {};
      SumGroupInNone(a, key, SetOf(ks), Amount);
      SumGroupInNone(b, key, SetOf(ks), Amount);
    } else {
      var rest := ks[1..];
      TableSumIsGroupDifference(a, b, key, labelOf, m, rest);
      assert SetOf(ks) == {ks[0]} + SetOf(rest) by {
        assert forall k :: k in ks <==> k == ks[0] || k in rest;
      }
      assert ks[0] !in SetOf(rest);
      SumGroupInSplit(a, key, ks[0], SetOf(rest), Amount);
      SumGroupInSplit(b, key, ks[0], SetOf(rest), Amount);
    }
  }

  /** Every row lies in a bin of the span. */
  lemma RowsInSpan(rows: seq<Row>, key: Row -> int, ks: seq<int>)
    requires forall k :: InSpan(rows, key, k) ==> k in ks
    ensures forall r :: r in rows ==> key(r) in SetOf(ks)
  {
    forall r | r in rows ensures key(r) in SetOf(ks) {
      assert InSpan(rows, key, key(r));
    }
  }

  /** Conservation: the per-bin sums add up to the amount of all rows. */
  lemma BinTableConservation(rows: seq<Row>, key: Row -> int, labelOf: int -> int)
    requires LabelsIncrease(labelOf)
    ensures Sum(BinTable(rows, key, labelOf), TotalOf) == Sum(rows, Amount)
  {
    var m, ks := DenseBins(rows, key), SpanBins(rows, key);
    assert BinTable(rows, key, labelOf) == ToTable(labelOf, m, ks);
    forall i | 0 <= i < |ks| ensures m[ks[i]] == BinTotal(rows, key, ks[i]) - BinTotal([], key, ks[i]) {
      NoRowsZero(key, ks[i]);
    }
    TableSumIsGroupDifference(rows, [], key, labelOf, m, ks);
    SumGroupInNone([], key, SetOf(ks), Amount);
    RowsInSpan(rows, key, ks);
    SumGroupInAll(rows, key, SetOf(ks), Amount);
  }

  // ---- revenue ----

  /**
   * `calculate_revenue_by_period`: the sales, summed per bin, one line per
   * bin from the first to the last sale, ascending by date.
   */
  function RevenueByPeriod(rows: seq<Row>, p: Period): (t: seq<PeriodTotal>)
    ensures DatesAscending(t)
    ensures |t| == |SpanBins(SaleRows(rows), BinKey(p))|
    ensures forall i :: 0 <= i < |t| ==>
      var k := SpanBins(SaleRows(rows), BinKey(p))[i];
      t[i] == PeriodTotal(BinLabel(p, k), BinTotal(SaleRows(rows), BinKey(p), k))
  {
    PandasLabelsIncrease(p);
    BinTable(SaleRows(rows), BinKey(p), Label(p))
  }

  /** Conservation: the revenue column sums to the amount of all sales. */
  lemma RevenueConservation(rows: seq<Row>, p: Period)
    ensures Sum(RevenueByPeriod(rows, p), TotalOf) == Sum(SaleRows(rows), Amount)
  {
    PandasLabelsIncrease(p);
    BinTableConservation(SaleRows(rows), BinKey(p), Label(p));
  }

  // ---- profit ----

  /** The profit table, and whether the warning "no expense data, profit is revenue" was raised. */
  datatype ProfitTable = ProfitTable(table: seq<PeriodTotal>, expensesMissing: bool)

  /** The labels treated as expenses, compared with lower-cased row labels. */
  const ExpenseOperations: seq<string> := [ReceiptLabel]

  /** The rows whose lower-cased label is one of `labels`. */
  function SelectLoweredIn(rows: seq<Row>, labels: seq<string>): (s: seq<Row>)
    ensures forall r :: r in s <==> r in rows && Lower(r.operation) in labels
    ensures (forall r :: r in rows ==> Lower(r.operation) !in labels) ==> s == []
  {
    if |rows| == 0 then []
    else
      assert forall r :: r in rows <==> r == rows[0] || r in rows[1..];
      (if Lower(rows[0].operation) in labels then [rows[0]] else []) + SelectLoweredIn(rows[1..], labels)
  }

  /** The rows whose lower-cased label is not "продажа". */
  function SelectNotSale(rows: seq<Row>): seq<Row> {
    if |rows| == 0 then []
    else (if Lower(rows[0].operation) != "продажа" then [rows[0]] else []) + SelectNotSale(rows[1..])
  }

  /**
   * The expense rows: those whose lower-cased label is in the expense list,
   * the list being non-empty; with an empty list every row not lower-casing
   * to "продажа" would be an expense.
   */
  function ExpenseRows(rows: seq<Row>): (e: seq<Row>)
    ensures forall r :: r in e <==> r in rows && Lower(r.operation) in ExpenseOperations
  {
    if |ExpenseOperations| > 0 then SelectLoweredIn(rows, ExpenseOperations) else SelectNotSale(rows)
  }

  /** Zero fill: a bin missing from a side counts 0 on that side. */
  function Get(m: map<int, real>, k: int): real {
    if k in m then m[k] else 0.0
  }

  /** The outer join of income and expense bins, income minus expense. */
  function JoinBins(income: map<int, real>, expense: map<int, real>): (m: map<int, real>)
    ensures forall k :: k in m <==> k in income || k in expense
    ensures forall k :: k in m ==> m[k] == Get(income, k) - Get(expense, k)
  {
    map k | k in income.Keys + expense.Keys :: Get(income, k) - Get(expense, k)
  }

  /**
   * The outer join of the income bins and the expense bins, filled with 0.
   * Without expense rows the expense side is 0 on every income bin.
   */
  function JoinedBins(income: seq<Row>, expense: seq<Row>, key: Row -> int): (m: map<int, real>)
    ensures forall k :: k in m <==> InSpan(income, key, k) || InSpan(expense, key, k)
    ensures forall k :: k in m ==> m[k] == BinTotal(income, key, k) - BinTotal(expense, key, k)
  {
    var incomeBins := DenseBins(income, key);
    var m := if |expense| > 0 then JoinBins(incomeBins, DenseBins(expense, key))
             else JoinBins(incomeBins, map k | k in incomeBins :: 0.0);
    assert forall k :: k in m ==> m[k] == BinTotal(income, key, k) - BinTotal(expense, key, k) by {
      forall k | k in m ensures m[k] == BinTotal(income, key, k) - BinTotal(expense, key, k) {
        if !InSpan(income, key, k) { OutsideSpanIsZero(income, key, k); }
        if !InSpan(expense, key, k) { OutsideSpanIsZero(expense, key, k); }
      }
    }
    m
  }

  function Min(a: int, b: int): int { if a <= b then a else b }
  function Max(a: int, b: int): int { if a >= b then a else b }

  /** The bins of the joined table: those in the income span or in the expense span, ascending. */
  function UnionBins(income: seq<Row>, expense: seq<Row>, key: Row -> int): (ks: seq<int>)
    requires |income| > 0
    ensures Increasing(ks)
    ensures forall k :: k in ks <==> InSpan(income, key, k) || InSpan(expense, key, k)
  {
    if |expense| == 0 then SpanBins(income, key) else
    var lo := Min(FirstBin(income, key), FirstBin(expense, key));
    var hi := Max(LastBin(income, key), LastBin(expense, key));
    var s := SetOf(SpanBins(income, key) + SpanBins(expense, key));
    assert forall k :: InSpan(income, key, k) || InSpan(expense, key, k) ==> k in s && lo <= k <= hi;
    AscendingKeys(s, lo, hi)
  }

  /**
   * Profit per bin from income rows and expense rows: line i is the i-th
   * bin of either span, income minus expense in that bin, ascending by date.
   */
  function ProfitLines(income: seq<Row>, expense: seq<Row>, key: Row -> int, labelOf: int -> int): (t: seq<PeriodTotal>)
    requires |income| > 0
    requires LabelsIncrease(labelOf)
    ensures DatesAscending(t)
    ensures |t| == |UnionBins(income, expense, key)|
    ensures forall i :: 0 <= i < |t| ==>
      var k := UnionBins(income, expense, key)[i];
      t[i] == PeriodTotal(labelOf(k), BinTotal(income, key, k) - BinTotal(expense, key, k))
  {
    var m, ks := JoinedBins(income, expense, key), UnionBins(income, expense, key);
    LabelsAscending(labelOf, m, ks);
    ToTable(labelOf, m, ks)
  }

  /**
   * `calculate_profit_by_period`: no sales, no table; otherwise income per
   * bin minus expense per bin over the union of their bins.
   */
  function ProfitByPeriod(rows: seq<Row>, p: Period): (r: Option<ProfitTable>)
    ensures r.None? <==> SaleRows(rows) == []
  {
    var sales := SaleRows(rows);
    PandasLabelsIncrease(p);
    if |sales| == 0 then None
    else
      var expense := ExpenseRows(rows);
      Some(ProfitTable(ProfitLines(sales, expense, BinKey(p), Label(p)), |expense| == 0))
  }

  /**
   * The expense selection never matches: a lower-cased label never equals
   * "Поступление", whose first letter is upper-case.
   */
  lemma ExpenseRowsAlwaysEmpty(rows: seq<Row>)
    ensures ExpenseRows(rows) == []
  {
    forall r | r in rows ensures Lower(r.operation) !in ExpenseOperations {
      LowerNeverHasUpper(r.operation, ReceiptLabel, 0);
    }
  }

  /**
   * So profit per period is always the revenue per period, with the
   * "no expense data" warning raised, whatever receipts the table holds.
   */
  lemma ProfitIsRevenue(rows: seq<Row>, p: Period)
    requires SaleRows(rows) != []
    ensures ProfitByPeriod(rows, p) == Some(ProfitTable(RevenueByPeriod(rows, p), true))
  {
    ExpenseRowsAlwaysEmpty(rows);
    PandasLabelsIncrease(p);
    var sales := SaleRows(rows);
    var t, t' := ProfitLines(sales, [], BinKey(p), Label(p)), RevenueByPeriod(rows, p);
    assert UnionBins(sales, [], BinKey(p)) == SpanBins(sales, BinKey(p));
    forall i | 0 <= i < |t| ensures t[i] == t'[i] {
      NoRowsZero(BinKey(p), SpanBins(sales, BinKey(p))[i]);
    }
    assert t == t';
  }

  /** Profit with receipts as expenses: the evident intent of the expense selection. */
  function ProfitByPeriodIntended(rows: seq<Row>, p: Period): (r: Option<ProfitTable>)
    ensures r.None? <==> SaleRows(rows) == []
    ensures r.Some? ==> (r.value.expensesMissing <==> ReceiptRows(rows) == [])
  {
    var sales := SaleRows(rows);
    PandasLabelsIncrease(p);
    if |sales| == 0 then None
    else
      var expense := ReceiptRows(rows);
      Some(ProfitTable(ProfitLines(sales, expense, BinKey(p), Label(p)), |expense| == 0))
  }

  /**
   * Intended profit, line by line: line i is the i-th bin of the sale span or
   * the receipt span, under its label, sales minus receipts in that bin.
   */
  lemma IntendedProfitLines(rows: seq<Row>, p: Period)
    requires SaleRows(rows) != []
    ensures var t, ks := ProfitByPeriodIntended(rows, p).value.table, UnionBins(SaleRows(rows), ReceiptRows(rows), BinKey(p));
      && |t| == |ks|
      && forall i :: 0 <= i < |ks| ==>
           t[i] == PeriodTotal(BinLabel(p, ks[i]),
                     BinTotal(SaleRows(rows), BinKey(p), ks[i]) - BinTotal(ReceiptRows(rows), BinKey(p), ks[i]))
  {
    PandasLabelsIncrease(p);
    var sales, receipts := SaleRows(rows), ReceiptRows(rows);
    assert ProfitByPeriodIntended(rows, p).value.table == ProfitLines(sales, receipts, BinKey(p), Label(p));
  }

  /** Conservation: the intended profit column sums to all sales minus all receipts. */
  lemma IntendedProfitConservation(rows: seq<Row>, p: Period)
    requires SaleRows(rows) != []
    ensures Sum(ProfitByPeriodIntended(rows, p).value.table, TotalOf)
         == Sum(SaleRows(rows), Amount) - Sum(ReceiptRows(rows), Amount)
  {
    PandasLabelsIncrease(p);
    var sales, receipts, key := SaleRows(rows), ReceiptRows(rows), BinKey(p);
    var m, ks := JoinedBins(sales, receipts, key), UnionBins(sales, receipts, key);
    assert ProfitByPeriodIntended(rows, p).value.table == ToTable(Label(p), m, ks);
    TableSumIsGroupDifference(sales, receipts, key, Label(p), m, ks);
    RowsInSpan(sales, key, ks);
    RowsInSpan(receipts, key, ks);
    SumGroupInAll(sales, key, SetOf(ks), Amount);
    SumGroupInAll(receipts, key, SetOf(ks), Amount);
  }

  /** A sale of 100 and a receipt of 50 of the same item on the same day. */
  const ExampleSale: Row := Row("1", 0, "", "", "A", "a", "d", 1, SaleLabel, 100.0, 100.0)
  const ExampleReceipt: Row := Row("2", 0, "", "", "A", "a", "d", 1, ReceiptLabel, 50.0, 50.0)

  /** The sale is the only sale of the example, the receipt its only receipt. */
  lemma ExampleSelections()
    ensures SaleRows([ExampleSale, ExampleReceipt]) == [ExampleSale]
    ensures ReceiptRows([ExampleSale, ExampleReceipt]) == [ExampleReceipt]
  {
    var rows := [ExampleSale, ExampleReceipt];
    assert Lower(SaleLabel) == "продажа";
    assert Lower(ReceiptLabel) == "поступление";
    assert rows[1..] == [ExampleReceipt];
    assert rows[1..][1..] == [];
  }

  /**
   * On that example the profit table as written adds up to 100, the
   * receipt ignored; with receipts as expenses it adds up to 50.
   */
  lemma ReceiptIgnoredExample(p: Period)
    ensures Sum(ProfitByPeriod([ExampleSale, ExampleReceipt], p).value.table, TotalOf) == 100.0
    ensures Sum(ProfitByPeriodIntended([ExampleSale, ExampleReceipt], p).value.table, TotalOf) == 50.0
  {
    var rows := [ExampleSale, ExampleReceipt];
    ExampleSelections();
    ProfitIsRevenue(rows, p);
    RevenueConservation(rows, p);
    IntendedProfitConservation(rows, p);
    assert Sum([ExampleSale], Amount) == 100.0;
    assert Sum([ExampleReceipt], Amount) == 50.0;
  }
}
