# Transaction dashboard queries, modelled in Dafny

The service keeps a table of sale transactions (title, description, price,
sold flag, category, date of sale) and answers five read-only queries over
it: a searchable, paginated listing; the statistics of a calendar month
(total sale amount, sold count, unsold count); a ten-range price histogram
of a month (the bar chart); the category counts of a month (the pie chart);
and a combined endpoint that returns the last three together.

This project models those queries as pure functions over the table, taken as
a `seq<Transaction>` in insertion order, and proves what they promise:

- `seqs.dfy` (`Seqs`): the order-preserving selection that a SQL `WHERE`
  amounts to, with its append and partition laws.
- `transaction.dfy` (`Transactions`): the record, its parsed date, and the
  month selection `extract('month', dateOfSale) == month`, which ignores the
  year.
- `statistics.dfy` (`Statistics`): the three monthly numbers; the two counts
  partition the month, the amount is the price sum of exactly the sold
  records, and the query is a homomorphism from table concatenation to
  field-wise addition.
- `barchart.dfy` (`BarChart`): the if/elif price classifier, proved equal to
  an interval description with upper-closed bounds; the histogram always has
  the ten labels and its counts sum to the month's size.
- `piechart.dfy` (`PieChart`): the category counter; its keys are exactly
  the month's categories, every count is at least one, and the counts sum to
  the month's size.
- `listing.dfy` (`Listing`): the search predicate (title LIKE, description
  LIKE, or an all-digit term equal to the price) and OFFSET/LIMIT
  pagination, proved to be the exact slice of the matches and to cover them
  page by page without gaps or overlaps.
- `combined.dfy` (`Combined`): the combined result and its consistency, and
  the combined endpoint as the code writes it (see Findings).

Prices are `real`: the model idealises floating point. The table's row
order is taken to be insertion order. SQL leaves the order of a query
without `ORDER BY` unspecified; in practice SQLite returns a full scan of a
plain table in rowid order, which is insertion order here.

## Model

| member | source | states |
|---|---|---|
| Transactions.MonthFilter | app.py:74 | a record is selected iff the month of its sale date equals the requested month; a month number outside 1..12 selects nothing |
| Transactions.MonthFilterAppend | app.py:74 | the month selection of a concatenated table is the concatenation of the selections |
| Transactions.MonthFilterIgnoresYear | app.py:74 | moving every record into any one year selects the same records in the same order: the year plays no part |
| Seqs.FilterPartition | app.py:77-78 | selecting by a predicate and by its negation accounts for every element exactly once |
| Statistics.GetStatistics | app.py:74-78 | sold count plus unsold count equals the number of the month's records; a month without records reports zero amount and zero counts |
| Statistics.SoldAmount | app.py:76 | the conditional sum is zero when no record is sold and the plain price sum when every record is sold |
| Statistics.SoldAmountIsSoldPriceSum | app.py:76 | the one-pass conditional sum equals the plain price sum over the sold records |
| Statistics.SaleAmountIsSoldSum | app.py:76-77 | total sale amount is the price sum over exactly the month's sold records, and the sold count is their number |
| Statistics.StatisticsAppend | app.py:76-78 | statistics of a concatenated table are the field-wise sum of the parts' statistics |
| Statistics.StatisticsSingle | app.py:76-78 | a single record contributes nothing outside the month, its price and one sold item when sold, one unsold item otherwise |
| Statistics.UnsoldDoesNotContribute | app.py:76-77 | adding an unsold record changes neither the sale amount nor the sold count |
| Statistics.SaleAmountBounds | app.py:76 | with non-negative prices the sale amount lies between zero and the month's total price |
| BarChart.Bucket | app.py:100-119 | the classifier always yields one of the ten labels |
| BarChart.BucketIsRange | app.py:100-119 | the chain picks label i iff the price lies in (100·i, 100·(i+1)], lowest range open below, highest open above; the ten labels are distinct |
| BarChart.RangesPartition | app.py:98-119 | no price lies in two ranges |
| BarChart.ZeroChart | app.py:93-96 | the starting dict holds exactly the ten labels, each with count zero |
| BarChart.Tally | app.py:98-119 | after the loop the keys are still exactly the ten labels and each label holds the number of records in its range |
| BarChart.GetBarChart | app.py:91-121 | the month's chart has the ten labels, each counting the month's records in its range, and is all zeros for an empty month |
| BarChart.LabelSumBump | app.py:101 | raising one label's count raises the sum over distinct labels by one |
| BarChart.BarChartTotal | app.py:98-119 | the ten counts sum to the number of the month's records: each record lands in exactly one bucket |
| PieChart.CountCategory | app.py:132-135 | a category's count is positive iff some record carries it |
| PieChart.CategoryCounts | app.py:130-135 | the keys are exactly the categories present, each mapped to its number of records, never zero |
| PieChart.GetPieChart | app.py:128-137 | a category is a key iff some record of the month carries it; its value counts the month's records of that category; an empty month gives an empty map |
| PieChart.MapTotalRemove | app.py:130-135 | the sum of a map's values does not depend on the order the keys are taken in |
| PieChart.PieChartTotal | app.py:130-135 | the category counts sum to the number of the month's records |
| Listing.Like | app.py:59-60 | the empty term is found in every text; a term is never found in a text shorter than itself |
| Listing.LikeIgnoresCase | app.py:59-60 | texts and terms that agree once ASCII-lowered are matched alike |
| Listing.LikeFindsInfix | app.py:59-60 | a term occurring in a text is found whatever surrounds it, in the text as given or lower-cased, with the term as given or lower-cased |
| Listing.DigitsValue | app.py:61 | `float` of an all-digit term ignores a leading zero: "0" followed by s reads as s |
| Listing.Decimal | app.py:61 | every natural number has an all-digit spelling that reads back as that number |
| Listing.Matches | app.py:59-61 | the empty term matches every record; a term that is not all digits matches only if it fits within the title or the description |
| Listing.SearchFilter | app.py:57-61 | an empty search keeps the whole table; otherwise a record is kept iff it matches the search; nothing is invented |
| Listing.Offset | app.py:63 | OFFSET k keeps the rows after the first k, in order, and nothing when there are at most k |
| Listing.Limit | app.py:63 | LIMIT n keeps the first min(n, length) rows, in order |
| Listing.OffsetLimitSlice | app.py:63 | OFFSET k then LIMIT n is the slice from k up to min(k+n, length), and empty when k is past the end |
| Listing.PageIsSlice | app.py:63 | page p of size n is the slice from min((p-1)·n, length) up to min((p-1)·n + n, length) |
| Listing.Paginate | app.py:63 | page p of size n is the slice from (p-1)·n up to min(p·n, length), holds only rows of the input, and is empty exactly when it starts past the end |
| Listing.ListTransactions | app.py:52-63 | at most per_page records, each in the table and matching the search; empty exactly when the page starts past the last match |
| Listing.ListingIsSlice | app.py:58-63 | when the page starts before the last match, the listing is exactly the matches from (p-1)·n up to min(p·n, number of matches), in table order |
| Listing.ListDefault | app.py:53-55 | without page and per_page the listing is the first ten matches |
| Listing.PageOfIndex | app.py:63 | match i appears on page i/n + 1 at position i mod n |
| Listing.PagesArePrefix | app.py:63 | pages 1..k read in order are the first k·n matches: no overlap and no gap |
| Listing.NumericSearchFindsPrice | app.py:61 | the decimal spelling of a record's price finds that record |
| Listing.TextSearchIgnoresPrice | app.py:61 | a term that is not all digits matches only through title or description |
| Combined.GetCombined | app.py:144-152 | each field equals the standalone result for the same table and month, and the statistics counts agree with the bar chart total |
| Combined.CombinedConsistent | app.py:144-152 | statistics counts, bar chart total and pie chart total all equal the number of the month's records |
| Combined.ChartTotalIsMapTotal | app.py:93-121 | for a chart keyed by the ten labels, the total over the fixed label list equals the plain sum of all its values |
| Combined.CombinedEmptyMonth | app.py:144-152 | a month without records gives zero statistics, ten zero bars and no categories |
| Combined.SingleMarchSale | app.py:74-135 | one sold record of 250 in "c1" dated 2024-03-05 gives March statistics (250, 1, 0), one count in "201-300" only, and the single slice "c1" → 1 |
| Combined.GetJson | app.py:144-146 | `.get_json()` succeeds exactly on a bare response, giving its body, and fails on a (response, status) pair |
| Combined.StatisticsView | app.py:80-84 | calling the statistics view directly yields its statistics paired with status 200, on which `.get_json()` fails |
| Combined.BarChartView | app.py:121 | calling the bar chart view directly yields its chart paired with status 200, on which `.get_json()` fails |
| Combined.PieChartView | app.py:137 | calling the pie chart view directly yields its category counts paired with status 200, on which `.get_json()` fails |
| Combined.CombinedAsWritten | app.py:141-154 | the endpoint as written never yields a result |
| Combined.CombinedAsWrittenFails | app.py:144 | as written, the endpoint fails at the first `.get_json()`, on the statistics pair, with AttributeError('tuple', 'get_json'), for every table and month |

## Left out

- HTTP routing, `jsonify`, status codes and `app.run` (app.py:28, app.py:48, app.py:156-159): transport, not query logic.
- The seeding endpoint (app.py:29-48): a network fetch and a database insert; the table is a parameter of every query. Re-seeding appends a second copy of each record, which the model admits since the table may hold duplicates.
- Database-assigned ids and the session (app.py:15, app.py:46-47): `id` is carried as an ordinary field.
- Date parsing with `strptime` (app.py:25, app.py:44): dates arrive as parsed (year, month, day) triples with the month in 1..12.
- Parse failures of `int(...)` on `month`, `page` and `per_page`, and a missing `month` (app.py:54-55, app.py:72): the model takes integers; `Listing.ListTransactions` requires `page >= 1` and `per_page >= 1`, because what the pagination library does below 1 is library behaviour.
- The positional call `paginate(page, per_page, False)` (app.py:63) is taken as OFFSET (page-1)·per_page then LIMIT per_page, the behaviour of the library releases that accept it.
- Transactions.MonthFilter: the month is sent to SQLite as a bound parameter (app.py:74), and a value outside SQLite's signed 64-bit INTEGER range (-2^63 .. 2^63-1) makes the source raise `OverflowError`. The model takes an unbounded integer and selects nothing for such a month, so `Statistics.GetStatistics`, `BarChart.GetBarChart` and `PieChart.GetPieChart` report an empty month where the source fails.
- Combined.CombinedAsWrittenFails: for a month outside that 64-bit range the source fails earlier, with `OverflowError` inside `get_statistics` (app.py:74), before the first `.get_json()`; the model reports the `AttributeError` for every month.
- Listing.Paginate: LIMIT `per_page` and OFFSET `(page-1)·per_page` are bound parameters too (app.py:63); either one at 2^63 or more makes the source raise `OverflowError`, while the model returns the corresponding slice.
- Listing.ListTransactions: inherits the same unmodelled `OverflowError` for a `per_page` or an offset of 2^63 or more.
- Listing.Like: does not model `%` and `_` in the search term acting as wildcards, nor case folding beyond ASCII; it is a case-insensitive ASCII substring test.
- Listing.IsDigits: accepts only ASCII '0'..'9'. In the source a term of other Unicode decimal digits (such as '١٢٣') passes `isdigit` and `float` reads its value, so it is compared with the price; the model never compares such a term with the price.
- Listing.DigitsValue: a term of non-decimal digits (such as '²') passes `isdigit` in the source but makes `float` raise, an unhandled error the model does not represent; such a term is not all digits in the model.
- Statistics.GetStatistics: the sale amount is an exact `real` sum, not a floating-point sum with rounding; `Listing.Matches` likewise compares the price with the exact value of the digits.
- PieChart.CategoryCounts: the order of keys in the returned JSON object is not modelled; a map has none.
- The serialised shape of each listed record (app.py:64-65): the listing returns the records themselves.
- app.js: browser rendering and fetch calls, not part of the query logic.

## Findings

| source | as written | input that shows it | evidently intended | confidence | as-written member | corrected member |
|---|---|---|---|---|---|---|
| app.py:144-146 | `get_statistics()`, `bar_chart()` and `pie_chart()` return the pair `(response, 200)`, and `.get_json()` is called on that pair, which has no such attribute | any request to `/combined`, e.g. an empty table and month 3 | the three sub-results combined into one record | high; not executed | Combined.CombinedAsWritten (with Combined.CombinedAsWrittenFails) | Combined.GetCombined (with Combined.CombinedConsistent) |
