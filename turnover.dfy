/**
 * Stock movement per item (`analyze_inventory_turnover`): sales and
 * receipts summed per (sku, name), joined with a full outer join whose
 * missing side counts 0, with the unit difference, the profit and the
 * margin of each item, sorted by the size of the difference, largest
 * first, and cut to the first lines.
 */
module Turnover {
  import opened Wrappers
  import opened Tally
  import opened Sales
  import opened Sorting

  /** The join key of the two groupings. */
  datatype ItemKey = ItemKey(sku: string, name: string)

  function ItemKeyOf(r: Row): ItemKey { ItemKey(r.sku, r.name) }

  /** Units and money of a group of rows. */
  datatype Totals = Totals(units: nat, money: real)

  /** One line of the turnover table. */
  datatype Item = Item(
    sku: string,
    name: string,
    sold: nat,
    revenue: real,
    received: nat,
    cost: real,
    diff: int,
    profit: real,
    margin: Option<real>)

  /** The size of the unit difference, the sort key. */
  function AbsDiff(it: Item): real {
    if it.diff >= 0 then it.diff as real else (-it.diff) as real
  }

  // ---- margin ----

  /**
   * The margin in percent: profit over cost where cost is positive; no
   * margin for an item sold without any cost; 0 otherwise.
   */
  function Margin(sold: nat, profit: real, cost: real): Option<real> {
    if sold > 0 && cost == 0.0 then None
    else if cost > 0.0 then Some(profit / cost * 100.0)
    else Some(0.0)
  }

  /**
   * The margin column as the report fills it: 0 everywhere, then
   * profit / cost * 100 where cost is positive, then no value where units
   * were sold at no cost.
   */
  method MarginColumn(sold: seq<nat>, profit: seq<real>, cost: seq<real>) returns (margin: seq<Option<real>>)
    requires |profit| == |sold| && |cost| == |sold|
    ensures |margin| == |sold|
    ensures forall i :: 0 <= i < |sold| ==> margin[i] == Margin(sold[i], profit[i], cost[i])
  {
    var column := new Option<real>[|sold|](_ => Some(0.0));
    for i := 0 to |sold|
      invariant forall j :: 0 <= j < i ==> column[j] == if cost[j] > 0.0 then Some(profit[j] / cost[j] * 100.0) else Some(0.0)
      invariant forall j :: i <= j < |sold| ==> column[j] == Some(0.0)
    {
      if cost[i] > 0.0 {
        column[i] := Some(profit[i] / cost[i] * 100.0);
      }
    }
    for i := 0 to |sold|
      invariant forall j :: 0 <= j < i ==> column[j] == Margin(sold[j], profit[j], cost[j])
      invariant forall j :: i <= j < |sold| ==> column[j] == if cost[j] > 0.0 then Some(profit[j] / cost[j] * 100.0) else Some(0.0)
    {
      if sold[i] > 0 && cost[i] == 0.0 {
        column[i] := None;
      }
    }
    margin := column[..];
  }

  /** An item that was only received, at a positive cost, has margin -100, not 0. */
  lemma ReceiptOnlyMargin(sold: nat, profit: real, cost: real)
    requires sold == 0 && profit == 0.0 - cost && cost > 0.0
    ensures Margin(sold, profit, cost) == Some(-100.0)
  {
    assert profit / cost == -1.0;
  }

  // ---- grouping and joining ----

  /** Units and money of the rows of one item; 0 and 0 for an item without rows. */
  function TotalsOf(rows: seq<Row>, k: ItemKey): Totals {
    var g := Group(rows, ItemKeyOf, k);
    Totals(SumNat(g, Quantity), Sum(g, Amount))
  }

  /** `groupby([sku, name]).agg(sum)`: the totals of every item of the rows. */
  function GroupTotals(rows: seq<Row>): (m: map<ItemKey, Totals>)
    ensures forall k :: k in m <==> exists r :: r in rows && ItemKeyOf(r) == k
    ensures forall k :: k in m ==> m[k] == TotalsOf(rows, k)
  {
    map k | k in SetOf(Keys(rows, ItemKeyOf)) :: TotalsOf(rows, k)
  }

  /** An item without rows has no units and no money: the `fillna(0)` of the join. */
  lemma NoRowsNoTotals(rows: seq<Row>, k: ItemKey)
    requires forall r :: r in rows ==> ItemKeyOf(r) != k
    ensures TotalsOf(rows, k) == Totals(0, 0.0)
  {
    SumGroupInNone(rows, ItemKeyOf, {k}, Amount);
  }

  function GetOrZero(m: map<ItemKey, Totals>, k: ItemKey): Totals {
    if k in m then m[k] else Totals(0, 0.0)
  }

  /** The derived columns of one item: difference, profit and margin. */
  function ItemOf(k: ItemKey, sales: Totals, receipts: Totals): (it: Item)
    ensures ItemKey(it.sku, it.name) == k
    ensures Consistent(it)
  {
    var profit := sales.money - receipts.money;
    Item(k.sku, k.name, sales.units, sales.money, receipts.units, receipts.money,
         sales.units - receipts.units, profit, Margin(sales.units, profit, receipts.money))
  }

  /** `merge(how='outer')` with the missing side filled with 0. */
  function OuterJoin(sales: map<ItemKey, Totals>, receipts: map<ItemKey, Totals>): (m: map<ItemKey, Item>)
    ensures forall k :: k in m <==> k in sales || k in receipts
    ensures forall k :: k in m ==> m[k] == ItemOf(k, GetOrZero(sales, k), GetOrZero(receipts, k))
  {
    map k | k in sales.Keys + receipts.Keys :: ItemOf(k, GetOrZero(sales, k), GetOrZero(receipts, k))
  }

  /** The keys of `ks` that are not in `seen`, in order. */
  function NotIn(ks: seq<ItemKey>, seen: seq<ItemKey>): (r: seq<ItemKey>)
    ensures forall k :: k in r <==> k in ks && k !in seen
    ensures Distinct(ks) ==> Distinct(r)
  {
    if |ks| == 0 then []
    else
      var rest := NotIn(ks[1..], seen);
      assert forall k :: k in ks <==> k == ks[0] || k in ks[1..];
      if ks[0] in seen then rest
      else
        assert Distinct(ks) ==> Distinct([ks[0]] + rest) by {
          if Distinct(ks) {
            assert ks[0] !in ks[1..] by {
              forall j | 0 <= j < |ks[1..]| ensures ks[1..][j] != ks[0] {
                assert ks[1..][j] == ks[j + 1];
              }
            }
            assert Distinct(ks[1..]) by {
              forall i, j | 0 <= i < j < |ks[1..]| ensures ks[1..][i] != ks[1..][j] {
                assert ks[1..][i] == ks[i + 1] && ks[1..][j] == ks[j + 1];
              }
            }
          }
        }
        [ks[0]] + rest
  }

  /** The keys of the joined table: the sold items, then the items only received. */
  function JoinKeys(sales: seq<Row>, receipts: seq<Row>): (ks: seq<ItemKey>)
    ensures Distinct(ks)
    ensures forall k :: k in ks <==>
      ((exists r :: r in sales && ItemKeyOf(r) == k) || (exists r :: r in receipts && ItemKeyOf(r) == k))
  {
    var sold := Keys(sales, ItemKeyOf);
    var onlyReceived := NotIn(Keys(receipts, ItemKeyOf), sold);
    var ks := sold + onlyReceived;
    assert Distinct(ks) by {
      forall i, j | 0 <= i < j < |ks| ensures ks[i] != ks[j] {
        if i < |sold| && j >= |sold| {
          assert ks[j] in onlyReceived;
        }
      }
    }
    ks
  }

  /** The key column of a turnover table. */
  function ItemKeys(t: seq<Item>): (ks: seq<ItemKey>)
    ensures |ks| == |t|
    ensures forall i :: 0 <= i < |t| ==> ks[i] == ItemKey(t[i].sku, t[i].name)
  {
    seq(|t|, i requires 0 <= i < |t| => ItemKey(t[i].sku, t[i].name))
  }

  /** Every line keeps its columns consistent: difference, profit and margin follow from the four sums. */
  predicate Consistent(it: Item) {
    && it.diff == it.sold - it.received
    && it.profit == it.revenue - it.cost
    && it.margin == Margin(it.sold, it.profit, it.cost)
  }

  /** The lines of the join for the keys `ks`, in that order. */
  function JoinedLines(m: map<ItemKey, Item>, ks: seq<ItemKey>): (t: seq<Item>)
    requires forall i :: 0 <= i < |ks| ==> ks[i] in m
    ensures |t| == |ks|
    ensures forall i :: 0 <= i < |ks| ==> t[i] == m[ks[i]]
  {
    seq(|ks|, i requires 0 <= i < |ks| => m[ks[i]])
  }

  /**
   * The joined table before sorting: one consistent line per item sold or
   * received, each item once.
   */
  function TurnoverTable(rows: seq<Row>): (t: seq<Item>)
    ensures ItemKeys(t) == JoinKeys(SaleRows(rows), ReceiptRows(rows))
    ensures forall i :: 0 <= i < |t| ==> Consistent(t[i])
  {
    var sales, receipts := SaleRows(rows), ReceiptRows(rows);
    var m := OuterJoin(GroupTotals(sales), GroupTotals(receipts));
    var ks := JoinKeys(sales, receipts);
    assert forall i :: 0 <= i < |ks| ==> ks[i] in m by {
      forall i | 0 <= i < |ks| ensures ks[i] in m {
        assert ks[i] in ks;
      }
    }
    var t := JoinedLines(m, ks);
    forall i | 0 <= i < |t| ensures Consistent(t[i]) && ItemKeys(t)[i] == ks[i] {
      assert t[i] == m[ks[i]];
    }
    t
  }

  /**
   * `analyze_inventory_turnover`: the joined table sorted by the size of
   * the unit difference, largest first, cut to `head(topN)`.
   */
  function InventoryTurnover(rows: seq<Row>, topN: int): (t: seq<Item>)
    ensures |t| == HeadLength(|JoinKeys(SaleRows(rows), ReceiptRows(rows))|, topN)
    ensures SortedDesc(t, AbsDiff)
    ensures multiset(t) <= multiset(TurnoverTable(rows))
    ensures forall y :: y in multiset(TurnoverTable(rows)) - multiset(t) ==>
      forall i :: 0 <= i < |t| ==> AbsDiff(y) <= AbsDiff(t[i])
  {
    var table := TurnoverTable(rows);
    assert |table| == |ItemKeys(table)|;
    TopBy(table, AbsDiff, topN)
  }

  // ---- properties of the joined table ----

  /** Line i of the joined table is item i of the join, with 0 on the side it is missing from. */
  lemma TurnoverLines(rows: seq<Row>)
    ensures var t, ks := TurnoverTable(rows), JoinKeys(SaleRows(rows), ReceiptRows(rows));
      forall i :: 0 <= i < |t| ==>
        t[i] == ItemOf(ks[i], TotalsOf(SaleRows(rows), ks[i]), TotalsOf(ReceiptRows(rows), ks[i]))
  {
    var sales, receipts := SaleRows(rows), ReceiptRows(rows);
    var soldBy, receivedBy := GroupTotals(sales), GroupTotals(receipts);
    var ks := JoinKeys(sales, receipts);
    forall i | 0 <= i < |ks|
      ensures GetOrZero(soldBy, ks[i]) == TotalsOf(sales, ks[i])
      ensures GetOrZero(receivedBy, ks[i]) == TotalsOf(receipts, ks[i])
    {
      if ks[i] !in soldBy { NoRowsNoTotals(sales, ks[i]); }
      if ks[i] !in receivedBy { NoRowsNoTotals(receipts, ks[i]); }
    }
  }

  /** A line of an item only received, at a positive cost, has margin -100. */
  lemma ReceiptOnlyLine(rows: seq<Row>, i: int)
    requires 0 <= i < |TurnoverTable(rows)|
    requires TurnoverTable(rows)[i].sold == 0 && TurnoverTable(rows)[i].revenue == 0.0
    requires TurnoverTable(rows)[i].cost > 0.0
    ensures TurnoverTable(rows)[i].margin == Some(-100.0)
  {
    var it := TurnoverTable(rows)[i];
    assert Consistent(it);
    ReceiptOnlyMargin(it.sold, it.profit, it.cost);
  }

  /** Lines taken from a table with distinct keys have distinct keys. */
  lemma SubTableKeysDistinct(table: seq<Item>, t: seq<Item>)
    requires multiset(t) <= multiset(table)
    requires Distinct(ItemKeys(table))
    ensures Distinct(ItemKeys(t))
    ensures forall i :: 0 <= i < |t| ==> t[i] in table
    ensures (forall i :: 0 <= i < |table| ==> Consistent(table[i])) ==> forall i :: 0 <= i < |t| ==> Consistent(t[i])
  {
    assert forall i :: 0 <= i < |t| ==> t[i] in table by {
      forall i | 0 <= i < |t| ensures t[i] in table {
        assert t[i] in multiset(t);
      }
    }
    assert Distinct(table) by {
      forall i, j | 0 <= i < j < |table| ensures table[i] != table[j] {
        assert ItemKeys(table)[i] != ItemKeys(table)[j];
      }
    }
    PermutationDistinct(table, t);
    forall i, j | 0 <= i < j < |t| ensures ItemKeys(t)[i] != ItemKeys(t)[j] {
      var p :| 0 <= p < |table| && table[p] == t[i];
      var q :| 0 <= q < |table| && table[q] == t[j];
      assert t[i] != t[j];
      assert p != q;
      assert ItemKeys(table)[p] != ItemKeys(table)[q];
    }
  }

  /**
   * The report's lines are lines of the joined table: each item at most
   * once, each line consistent.
   */
  lemma InventoryTurnoverLines(rows: seq<Row>, topN: int)
    ensures var t := InventoryTurnover(rows, topN);
      && Distinct(ItemKeys(t))
      && forall i :: 0 <= i < |t| ==> t[i] in TurnoverTable(rows) && Consistent(t[i])
  {
    var table, t := TurnoverTable(rows), InventoryTurnover(rows, topN);
    SubTableKeysDistinct(table, t);
  }

  /** An item of the joined table left out of the report moved no more units than any item kept. */
  lemma InventoryTurnoverOmitted(rows: seq<Row>, topN: int, y: Item)
    requires y in TurnoverTable(rows)
    requires y !in InventoryTurnover(rows, topN)
    ensures forall i :: 0 <= i < |InventoryTurnover(rows, topN)| ==>
      AbsDiff(y) <= AbsDiff(InventoryTurnover(rows, topN)[i])
  {
    LeftOutBelow(TurnoverTable(rows), InventoryTurnover(rows, topN), y);
  }

  /** A line of the table missing from the kept lines is among the lines left out. */
  lemma LeftOutBelow(table: seq<Item>, t: seq<Item>, y: Item)
    requires forall z :: z in multiset(table) - multiset(t) ==> forall i :: 0 <= i < |t| ==> AbsDiff(z) <= AbsDiff(t[i])
    requires y in table && y !in t
    ensures forall i :: 0 <= i < |t| ==> AbsDiff(y) <= AbsDiff(t[i])
  {
    assert y in multiset(table) - multiset(t) by {
      assert multiset(table)[y] > 0 && multiset(t)[y] == 0;
    }
  }
}
