# Sales analytics engine, modelled in Dafny

The engine reads a log of shop operations: sales ("Продажа") and receipts of
goods ("Поступление"). Each operation has a date, a store, a sku, a product
name, a department, a quantity of packs, a price and an amount. The engine
turns the log into report tables:

- revenue per day, week or month;
- profit per period;
- sales per department;
- the best-selling products;
- the stock movement per item;
- a stock report with deficit and excess candidates, the most and least profitable items, and summary figures.

This project models these reports in `process.py` as Dafny datatypes and
functions. It proves what each report promises: ordering, exact contents,
conservation of money, and the behaviour at the edges (no sales, unknown
metric, an empty table, an item seen on one side only).

Layout, one module per file:

| module | file | what it models |
|---|---|---|
| `Wrappers` | wrappers.dfy | `Option`, for pandas' None/NaN results |
| `Text` | text.dfy | `str.lower()` on Latin and Cyrillic letters; string order |
| `Tally` | tally.dfy | column sums, groups, distinct keys |
| `Sales` | sales.dfy | rows, the dropna/amount step, selection by operation label |
| `Calendar` | calendar.dfy | day numbers, civil dates, the daily, 'W-MON' and monthly bins and their labels |
| `Periods` | periods.dfy | revenue and profit per period |
| `Categories` | categories.dfy | sales per department |
| `Sorting` | sorting.dfy | descending sort and `head(n)` |
| `TopProducts` | topn.dfy | the top-n products |
| `Turnover` | turnover.dfy | stock movement per item |
| `Insights` | insights.dfy | the stock report |

Modelling choices:

- Money is `real`, so sums are exact. Quantities are `nat`.
- A date is a day number counted from 1970-01-01.
- A pandas `Grouper` bin is an integer bin index plus the date pandas labels it with:
  - daily: the day itself;
  - weekly ('W-MON'): the first Monday on or after the date;
  - monthly: the last day of the month.
- A grouper produces every bin between the first and the last one, so a period with no rows appears with total 0. The tables are modelled densely.
- The printed warning "no expense data, profit is revenue" is the `expensesMissing` flag of the profit result.
- The number of dropped rows is the second component of `Preprocess`.

Three behaviours of `process.py` that are easy to misread:

- A period with no rows inside the span of a report appears with 0, because the grouper bins at process.py:99-102 are dense.
- An item that was only received, at a positive cost, gets margin −100 (process.py:258-260; `Turnover.ReceiptOnlyLine`).
- When all profits are equal and the table is not empty, the most and least profitable lists hold the same items, however long the table is (process.py:306-308; `Insights.EqualProfitsOverlap`).

## Model

| member | source | states |
|---|---|---|
| Sales.DropIncomplete | process.py:67-78 | keeps exactly the rows with no missing cell in any column of the file, in order; every kept row's amount is quantity × price |
| Sales.DropIncompleteAppend | process.py:69 | dropping incomplete rows works row by row: it distributes over concatenation |
| Sales.Preprocess | process.py:39-80 | no table in, no table out; otherwise the kept rows are exactly the complete rows cleaned, in order, and with the reported number of dropped rows they add up to the input length; nothing is dropped from a complete table |
| Sales.AllCompleteCount | process.py:68-70 | a table whose rows are all complete keeps every row |
| Text.Lower | process.py:88-89 | lower-casing keeps the length, maps each letter to its lower case and leaves no upper-case letter |
| Text.LowerIdempotent | process.py:88-89 | lower-casing twice is lower-casing once |
| Sales.OperationalData | process.py:84-91 | with no selector the table comes back unchanged; with one, a row is kept exactly when its lower-cased label equals the lower-cased selector |
| Sales.SelectOperation | process.py:88-89 | each row is kept as often as it occurs when its label matches and never otherwise; the result is no longer than the input |
| Sales.SelectOperationAppend | process.py:89 | selection keeps input order: it distributes over concatenation |
| Sales.SelectOperationIdempotent | process.py:89 | selecting twice with one selector selects nothing more |
| Sales.SelectorCaseInsensitive | process.py:88 | the case of the selector does not change the selection |
| Calendar.WeekBinIsNextMonday | process.py:99 | a date's 'W-MON' bin is labelled by a Monday no earlier than the date and less than seven days after it |
| Calendar.BinIsFirstLabelOnOrAfter | process.py:99-102 | a date's bin label is the first label on or after the date: the previous bin's label is before it |
| Calendar.MonthBinContainsDay | process.py:102 | every day lies between the first and the last day of its monthly bin |
| Calendar.BinLabelIncreasing | process.py:105 | bin labels strictly increase with the bin index, so bins in index order are in date order |
| Calendar.CivilRoundTrip | process.py:102 | a day number converted to a civil date and back is the same day |
| Calendar.MonthLength | process.py:102 | every monthly bin is 28 to 31 days long |
| Periods.SpanBins | process.py:99-102 | the bins of a report are strictly increasing and are exactly the bins from the first row's bin to the last row's bin |
| Periods.BinTable | process.py:99-105 | a grouped table has dates strictly ascending and one line per bin of the span, each with that bin's label and the sum of its rows |
| Periods.BinTableConservation | process.py:99-102 | the lines of a grouped table add up to the sum of all grouped rows |
| Periods.RevenueByPeriod | process.py:95-108 | revenue lines have ascending dates; line i is the i-th bin of the sales' span, labelled as pandas labels it, with the sales amount of that bin |
| Periods.RevenueConservation | process.py:95-108 | the revenue column sums to the amount of all sales |
| Periods.ExpenseRows | process.py:119-126 | the expense rows are exactly those whose lower-cased label is in the expense list |
| Periods.JoinedBins | process.py:135-152 | the joined bins are exactly the bins in the income span or the expense span, each holding income minus expense of that bin, 0 for a side without rows there, and 0 expense everywhere when there are no expense rows |
| Periods.UnionBins | process.py:146-149 | the bins of the profit table are strictly increasing and are exactly the bins in the span of the income or of the expense |
| Periods.ProfitLines | process.py:145-157 | profit lines have ascending dates; line i is the i-th bin of the union, income minus expense in that bin |
| Periods.ProfitByPeriod | process.py:112-159 | no table exactly when there are no sales |
| Periods.SelectLoweredIn | process.py:122-123 | keeps exactly the rows whose lower-cased label is in the list; nothing when no lower-cased label is |
| Text.LowerNeverHasUpper | process.py:120-123 | a lower-cased string never equals a string with an upper-case letter |
| Periods.ExpenseRowsAlwaysEmpty | process.py:120-123 | the expense selection is empty for every table |
| Periods.ProfitIsRevenue | process.py:112-159 | whenever there are sales, the profit table is the revenue table with the warning raised, whatever receipts the log holds |
| Periods.ReceiptIgnoredExample | process.py:120-123 | a sale of 100 and a receipt of 50: profit as written adds up to 100, intended profit to 50 |
| Periods.ProfitByPeriodIntended | process.py:119-159 | no table exactly when there are no sales; the warning is raised exactly when there are no receipts |
| Periods.IntendedProfitLines | process.py:145-157 | intended line i is the i-th bin of the union of the sale and receipt spans, sales minus receipts in that bin |
| Periods.IntendedProfitConservation | process.py:145-152 | the intended profit column sums to all sales minus all receipts |
| Categories.SortedDepartments | process.py:176-179 | the departments are strictly ascending and are exactly those of the rows |
| Categories.UniqueProductsBounds | process.py:174 | a department with sales counts at least one sku and at most one per sale |
| Categories.SalesByCategory | process.py:163-181 | one line per department with sales, strictly ascending; revenue and units are the sums over its sales, its skus counted once each, between 1 and its number of sales |
| Categories.CategoryRevenueConservation | process.py:170-176 | the revenue column sums to the amount of all sales |
| TopProducts.ParseMetric | process.py:194-203 | only "quantity" and "revenue" name a metric |
| TopProducts.OnDate | process.py:190-191 | with no date the rows are unchanged; with one, each row of that day is kept as often as it occurs and no other row is kept |
| TopProducts.ProductTotals | process.py:206 | one line per product name of the rows, each with the sum of the metric over that product's rows |
| TopProducts.Ranked | process.py:209 | the product lines reordered, largest sum first |
| TopProducts.TopProducts | process.py:185-210 | no result exactly for an unknown metric; otherwise `head(n)` of the products, non-increasing |
| TopProducts.RankedNamesDistinct | process.py:206-209 | no product appears twice in the ranking |
| TopProducts.TopProductsLines | process.py:185-210 | the top lines are distinct products of the selected sales, each with its summed metric |
| TopProducts.TopProductsOmitted | process.py:209-210 | a product left out of the top sums to at most the last kept line |
| Sorting.SortDesc | process.py:209 | the sorted table is non-increasing in the key and a permutation of the input |
| Sorting.TopBy | process.py:267-283 | sort descending then `head(n)`: min(n, len) lines (for negative n all but the last -n), non-increasing, drawn from the input, and every line left out has a key no larger than every line kept |
| Sorting.SortEqualKeys | process.py:306-308 | the sort is stable: a table whose keys all tie is left as it is |
| Sorting.SortedFirstIsMax | process.py:306-308 | the first sorted line has the largest key of the table |
| Turnover.GroupTotals | process.py:220-234 | one entry per (sku, name) of the rows, holding the units and the money of that item's rows |
| Turnover.NoRowsNoTotals | process.py:244-247 | an item without rows on one side counts 0 units and 0 money there |
| Turnover.JoinKeys | process.py:237-241 | every (sku, name) sold or received, each once |
| Turnover.ItemOf | process.py:249-263 | a line carries its own key and is consistent: difference = sold − received, profit = revenue − cost, margin by the three rules |
| Turnover.TurnoverTable | process.py:237-263 | before sorting, the key column is exactly the joined keys, each once, and every line is consistent |
| Turnover.TurnoverLines | process.py:237-255 | line i holds item i's sale and receipt sums, 0 on the side it is missing from |
| Turnover.MarginColumn | process.py:257-263 | the column filled with 0, then profit/cost×100 where cost > 0, then no value where sold > 0 and cost = 0, equals the margin rule line by line |
| Turnover.ReceiptOnlyMargin | process.py:258-260 | with nothing sold and positive cost the margin is −100 |
| Turnover.ReceiptOnlyLine | process.py:257-263 | a line of an item only received, at positive cost, has margin −100 |
| Turnover.InventoryTurnover | process.py:265-283 | min(top_n, number of items) lines (negative top_n drops from the end), non-increasing in absolute difference, drawn from the joined table, and no line left out has a larger absolute difference than a line kept |
| Turnover.InventoryTurnoverOmitted | process.py:265-283 | an item of the joined table missing from the report has an absolute difference no larger than any reported item |
| Turnover.InventoryTurnoverLines | process.py:265-283 | the report's lines are lines of the joined table, each item at most once, each line consistent |
| Insights.MeanSold | process.py:298 | the mean of units sold is undefined exactly for an empty table and otherwise non-negative |
| Insights.Threshold | process.py:298-302 | the threshold is undefined exactly for an empty table and otherwise non-negative |
| Insights.Deficit | process.py:297-299 | each item whose difference is above the threshold, as often as it occurs, and nothing else, in table order (the filter `Where`); none for an empty table |
| Insights.Excess | process.py:301-303 | each item whose difference is below minus the threshold, as often as it occurs, and nothing else, in table order (the filter `Where`); none for an empty table |
| Insights.WhereAppend | process.py:297-303 | the boolean-mask filter works line by line: it distributes over concatenation, so it keeps the table's order |
| Insights.MostProfitable | process.py:306 | min(5, len) items, non-increasing in profit, drawn from the table; no item left out has more profit than an item kept |
| Insights.LeastProfitable | process.py:308 | min(5, len) items, non-decreasing in profit, drawn from the table; no item left out has less profit than an item kept |
| Insights.ProfitExtremes | process.py:305-308 | the first most-profitable item has the largest profit of the table; the first least-profitable item has the smallest |
| Insights.EqualProfitsOverlap | process.py:305-308 | when all profits tie, both lists are the first five items |
| Insights.MeanMargin | process.py:333 | the mean margin is undefined exactly when no item has a margin |
| Insights.MeanMarginWithin | process.py:333 | the mean margin lies between any bounds of the margins it averages |
| Insights.SummaryOf | process.py:329-337 | the totals are the revenue, cost and profit column sums, the average is the mean margin (present exactly when some item has a margin), and the counts are the deficit and excess list lengths and the number of items |
| Insights.InventoryInsights | process.py:288-339 | the stock lists are the deficit and excess items, the profit lists the five most and least profitable items, the summary that of the table; its counts equal the list lengths; every deficit line has difference > 0 and every excess line < 0, so no line is in both |
| Insights.TotalProfit | process.py:330-332 | over consistent lines, total profit is total revenue minus total costs |
| Insights.SummaryProfit | process.py:330-332 | the summary's total profit is its total revenue minus its total costs |

## Left out

- `load_sales_data` (CSV reading with the encoding fallback, and the column check) is file I/O and is not part of this model.
- manager.py (charts, printed reports, the menu loop) is not part of this model.
- `preprocess_data` type coercion is not modelled: date parsing, numeric parsing, and replacing a decimal comma with a point. The model starts from rows whose fields are already typed or missing.
- Sales.Clean: the cleaned row keeps only the ten required columns. Further columns of the file take part in `dropna()` (through `others`) but are not carried on, since no report reads them.
- Time of day is not modelled. A date is a whole day, so the single-day filter of the top-n report compares day numbers.
- Quantities are whole non-negative numbers. Fractional or negative pack counts after parsing are not modelled.
- Floating-point arithmetic is not modelled: money and margins are exact reals. The rounding to two decimals at process.py:276-280 is not modelled, so ties in profit that only appear after rounding (and decide `nlargest`/`nsmallest` at process.py:306-308) are not captured. `astype(int)` is an identity on the modelled whole-number unit columns.
- NaN is modelled as `None`: the undefined mean of an empty table, and the missing margin.
- The printed messages are not modelled beyond the `expensesMissing` flag and the dropped-row count.
- The conditional columns of `aggregate_sales_by_category` are not modelled: after preprocessing all three columns exist.
- Text.Lower: lower-cases ASCII and Cyrillic letters (А–Я and Ё) only, not the rest of Unicode.
- TopProducts.TopProducts: does not state the order among products with equal sums, because pandas' `sort_values` is not stable.
- Turnover.InventoryTurnover: does not state the order among items with equal absolute difference, for the same reason. The order of items out of the outer join is also not stated.
- Insights.MostProfitable: models `nlargest`/`nsmallest` with `keep='first'` by a stable sort. The tie order is proved only for the all-equal case (`Insights.EqualProfitsOverlap`).
- Categories.CategoryRevenueConservation: conservation is proved for the revenue column only, not for the units column.

## Findings

| source | as written | input that shows it | evidently intended | confidence | as-written member | corrected member |
|---|---|---|---|---|---|---|
| process.py:120-123 | expense rows are those whose lower-cased label is in ["Поступление"], which starts with an upper-case letter, so no row ever matches | one sale of 100 and one "Поступление" receipt of 50 on the same day: profit adds up to 100 | receipts count as expenses: profit adds up to 50 | not executed; high | Periods.ReceiptIgnoredExample | Periods.ProfitByPeriodIntended |
