/**
 * The rows of the sales log and the two steps every report starts from:
 * the completion of parsed rows (drop incomplete rows, derive the amount)
 * and the selection of rows by operation label.
 */
module Sales {
  import opened Wrappers
  import opened Text

  /**
   * One cleaned operation of the log. `date` is a day number (see Calendar);
   * `amount` is the money of the operation, `quantity * price` after cleaning.
   */
  datatype Row = Row(
    operationId: string,
    date: int,
    storeAddress: string,
    storeDistrict: string,
    sku: string,
    name: string,
    department: string,
    quantity: nat,
    operation: string,
    price: real,
    amount: real)

  /** The operation label of a sale, and of a receipt of goods. */
  const SaleLabel: string := "Продажа"
  const ReceiptLabel: string := "Поступление"

  // Columns as functions, for grouping and summing.
  function Amount(r: Row): real { r.amount }
  function Quantity(r: Row): nat { r.quantity }
  function QuantityValue(r: Row): real { r.quantity as real }
  function Department(r: Row): string { r.department }
  function Sku(r: Row): string { r.sku }
  function Name(r: Row): string { r.name }

  // ---- completion of parsed rows ----

  /**
   * A parsed row; a field that was empty or did not parse is None (pandas' NaN).
   * `others` holds the cells of any further columns the file has.
   */
  datatype ParsedRow = ParsedRow(
    operationId: Option<string>,
    date: Option<int>,
    storeAddress: Option<string>,
    storeDistrict: Option<string>,
    sku: Option<string>,
    name: Option<string>,
    department: Option<string>,
    quantity: Option<nat>,
    operation: Option<string>,
    price: Option<real>,
    others: seq<Option<string>>)

  /** `dropna()` keeps a row only when no cell is missing, in any column of the file. */
  predicate Complete(p: ParsedRow) {
    && p.operationId.Some? && p.date.Some? && p.storeAddress.Some? && p.storeDistrict.Some?
    && p.sku.Some? && p.name.Some? && p.department.Some? && p.quantity.Some?
    && p.operation.Some? && p.price.Some?
    && forall i :: 0 <= i < |p.others| ==> p.others[i].Some?
  }

  /** A complete parsed row with its amount derived as quantity times price. */
  function Clean(p: ParsedRow): Row
    requires Complete(p)
  {
    Row(p.operationId.value, p.date.value, p.storeAddress.value, p.storeDistrict.value,
        p.sku.value, p.name.value, p.department.value, p.quantity.value,
        p.operation.value, p.price.value, p.quantity.value as real * p.price.value)
  }

  function CountComplete(ps: seq<ParsedRow>): (n: nat)
    ensures n <= |ps|
  {
    if |ps| == 0 then 0 else (if Complete(ps[0]) then 1 else 0) + CountComplete(ps[1..])
  }

  /** The complete rows, cleaned, in their original order. */
  function DropIncomplete(ps: seq<ParsedRow>): (rows: seq<Row>)
    ensures |rows| == CountComplete(ps)
    ensures forall r :: r in rows ==> r.amount == r.quantity as real * r.price
    ensures forall r :: r in rows ==> exists p :: p in ps && Complete(p) && Clean(p) == r
  {
    if |ps| == 0 then []
    else
      assert forall p :: p in ps[1..] ==> p in ps;
      (if Complete(ps[0]) then [Clean(ps[0])] else []) + DropIncomplete(ps[1..])
  }

  /** Cleaning works row by row: it distributes over concatenation of tables. */
  lemma {:induction false} DropIncompleteAppend(a: seq<ParsedRow>, b: seq<ParsedRow>)
    ensures DropIncomplete(a + b) == DropIncomplete(a) + DropIncomplete(b)
    decreases |a|
  {
    if |a| == 0 {
      assert a + b == b;
    } else {
      assert (a + b)[1..] == a[1..] + b;
      DropIncompleteAppend(a[1..], b);
    }
  }

  /**
   * The cleaning step of the preprocessing: no table gives no table; otherwise
   * the incomplete rows are dropped (their number is what gets reported) and
   * every kept row gets its amount.
   */
  function Preprocess(data: Option<seq<ParsedRow>>): (r: Option<(seq<Row>, nat)>)
    ensures data.None? <==> r.None?
    ensures data.Some? ==> r.value.0 == DropIncomplete(data.value)
    ensures data.Some? ==> |r.value.0| + r.value.1 == |data.value|
    ensures data.Some? && (forall p :: p in data.value ==> Complete(p)) ==> r.value.1 == 0
  {
    match data
    case None => None
    case Some(ps) =>
      var rows := DropIncomplete(ps);
      AllCompleteCount(ps);
      Some((rows, |ps| - |rows|))
  }

  lemma {:induction false} AllCompleteCount(ps: seq<ParsedRow>)
    ensures (forall p :: p in ps ==> Complete(p)) ==> CountComplete(ps) == |ps|
    decreases |ps|
  {
    if |ps| > 0 {
      assert forall p :: p in ps[1..] ==> p in ps;
      AllCompleteCount(ps[1..]);
    }
  }

  // ---- selection by operation label ----

  /** The row's label equals the selector up to case, as `str.lower()` compares them. */
  predicate LabelIs(r: Row, selector: string) {
    Lower(r.operation) == Lower(selector)
  }

  /** The rows whose label matches the selector, in their original order. */
  function SelectOperation(rows: seq<Row>, selector: string): (s: seq<Row>)
    ensures |s| <= |rows|
    ensures forall r :: multiset(s)[r] == if LabelIs(r, selector) then multiset(rows)[r] else 0
  {
    if |rows| == 0 then []
    else
      assert rows == [rows[0]] + rows[1..];
      (if LabelIs(rows[0], selector) then [rows[0]] else []) + SelectOperation(rows[1..], selector)
  }

  /** `get_operational_data`: no selector gives the whole table. */
  function OperationalData(rows: seq<Row>, operation: Option<string>): (s: seq<Row>)
    ensures operation.None? ==> s == rows
    ensures operation.Some? ==> forall r :: r in s <==> r in rows && LabelIs(r, operation.value)
  {
    match operation
    case None => rows
    case Some(selector) =>
      var s := SelectOperation(rows, selector);
      assert forall r :: r in s <==> multiset(s)[r] > 0;
      s
  }

  /** Selection works row by row, so it keeps the input order: it distributes over concatenation. */
  lemma {:induction false} SelectOperationAppend(a: seq<Row>, b: seq<Row>, selector: string)
    ensures SelectOperation(a + b, selector) == SelectOperation(a, selector) + SelectOperation(b, selector)
    decreases |a|
  {
    if |a| == 0 {
      assert a + b == b;
    } else {
      assert (a + b)[1..] == a[1..] + b;
      SelectOperationAppend(a[1..], b, selector);
    }
  }

  /** Selecting twice with the same selector selects nothing more. */
  lemma {:induction false} SelectOperationIdempotent(rows: seq<Row>, selector: string)
    ensures SelectOperation(SelectOperation(rows, selector), selector) == SelectOperation(rows, selector)
    decreases |rows|
  {
    if |rows| > 0 {
      var head := if LabelIs(rows[0], selector) then [rows[0]] else [];
      SelectOperationAppend(head, SelectOperation(rows[1..], selector), selector);
      SelectOperationIdempotent(rows[1..], selector);
    }
  }

  /** The selector's own case does not matter. */
  lemma {:induction false} SelectorCaseInsensitive(rows: seq<Row>, selector: string)
    ensures SelectOperation(rows, Lower(selector)) == SelectOperation(rows, selector)
    decreases |rows|
  {
    if |rows| > 0 {
      LowerIdempotent(selector);
      assert LabelIs(rows[0], Lower(selector)) == LabelIs(rows[0], selector);
      SelectorCaseInsensitive(rows[1..], selector);
    }
  }

  function SaleRows(rows: seq<Row>): seq<Row> {
    OperationalData(rows, Some(SaleLabel))
  }

  function ReceiptRows(rows: seq<Row>): seq<Row> {
    OperationalData(rows, Some(ReceiptLabel))
  }
}
