# Supermarket dashboard: verified filter-and-aggregate pipeline

The dashboard script loads a spreadsheet of retail transactions into a table.
Each row has `City`, `Product line`, `Payment`, `Date`, `Total`,
`gross income` and `Quantity`. The sidebar offers four filters:
- the cities to keep;
- the product lines to keep;
- the payment methods to keep;
- an inclusive date range.

The page then shows three metrics over the rows that pass:
- total revenue;
- total profit;
- total quantity sold.

It also shows five charts:
- revenue by product line;
- revenue by city;
- transaction count by payment method;
- revenue by day;
- quantity by product line.

This project models that pipeline in Dafny as pure functions over a sequence
of rows and proves what it promises.

- `transactions.dfy` (module `Transactions`): the row type and the sheet. It
  also has the column operations the sidebar defaults are built from:
  `unique()` in first-appearance order, and the `min()`/`max()` of the dates.
  It defines the subsequence relation too.
- `filtering.dfy` (module `Filtering`): the filter selection. The view is
  taken the way the script takes it. Three `isin` masks and two date
  comparisons are joined with `&` into a boolean mask, and the mask is
  applied to the sheet by mask indexing. The module proves four things:
  - the view is an order-preserving subsequence of the sheet;
  - a row is in the view iff it passes all five tests;
  - an empty category selection empties the view;
  - the widgets' default selection gives back the whole sheet.
- `aggregate.dfy` (module `Aggregate`): column sums, `groupby(...).sum()`
  and `value_counts()`, each built recursively as a `map`. `MapSum` is the
  sum of a map's values in no particular order. The module proves three
  things:
  - the keys of a grouped result are exactly the keys present in the rows;
  - each entry is the sum over its group;
  - the entries add up to the column sum, or to the row count for
    `value_counts()`.
- `dashboard.dfy` (module `Dashboard`): the three metrics and five series of
  one run. Every series is computed from the same view. The module proves
  that:
  - the series agree with the metrics;
  - the series keys are the values present in the view;
  - an empty selection zeroes the report;
  - an untouched sidebar reports on the whole sheet.
  It also models the page's top-level choice. With no file uploaded, the page
  shows the upload prompt. If the date picker has handed back only one
  endpoint, the page fails. Otherwise it shows the report.
- `scenarios.dfy` (module `Scenarios`): three worked examples on a
  three-row sheet.
- `locale.dfy` (module `Locale`): the two label tables and the language
  choice.

Money is in integer cents and dates are integer day numbers, so nothing
involves floating point.

Four behaviours of the script are worth stating plainly:
- The page draws five series.
- The payment series counts rows; it does not sum a measure.
- A date range whose end is before its start lets no row through
  (`Filtering.ReversedRangeEmptiesView`), so the model does not require
  `start <= end`.
- A range with only one endpoint fails at `date_filter[1]`. This is
  modelled as the `IncompleteDateRange` screen.

Running the pipeline twice on the same sheet and selection gives the same
report. This holds by construction, because every member is a function.

## Model

| member | source | states |
|---|---|---|
| Transactions.Unique | group4x.py:75-91 | `unique()` of a column: the same set of values as the column, no value twice, and listed in order of first appearance (whenever `a` precedes `b` in the result, `a` occurs in the column before `b` first does); also a subsequence of the column |
| Transactions.Column | group4x.py:77-89 | a category column such as `df["City"]` has one entry per row, entry `i` being row `i`'s value |
| Transactions.ColumnValues | group4x.py:77-89 | a value occurs in a column iff some row of the sheet carries it |
| Transactions.MinDate | group4x.py:93-96 | the default start date is at most every row's date and is the date of some row |
| Transactions.MaxDate | group4x.py:93-96 | the default end date is at least every row's date and is the date of some row |
| Filtering.Keep | group4x.py:102-106 | the five tests joined by `&`: City, Product line and Payment each in their selection, start <= Date and Date <= end (a predicate; its properties are the `Filtered*` lemmas) |
| Filtering.Mask | group4x.py:101-107 | the joined boolean mask has one entry per row, and entry `i` is true iff row `i` passes the three `isin` tests and both date comparisons |
| Filtering.Select | group4x.py:101-107 | mask indexing keeps rows in the sheet's order (a subsequence) and yields exactly one row per true mask entry |
| Filtering.Filtered | group4x.py:101-107 | `df_filtered`: mask indexing of the sheet by the joined mask (a definition; the lemmas below state what it keeps) |
| Filtering.FilteredIsSubsequence | group4x.py:101-107 | the filtered view is the sheet with some rows deleted, in the sheet's order |
| Filtering.FilteredMembership | group4x.py:101-107 | a row is in the view iff it is in the sheet and its City, Product line and Payment are each selected and start <= Date <= end |
| Filtering.FilteredMultiplicity | group4x.py:101-107 | a passing row occurs in the view as often as in the sheet, a failing row never: the mask adds and drops nothing else |
| Filtering.NothingPassesEmptyView | group4x.py:101-107 | if no row of the sheet passes, the view is empty |
| Filtering.EmptyCategoryEmptiesView | group4x.py:102-104 | `isin([])` on any one category gives an empty view, whatever the other filters are |
| Filtering.ReversedRangeEmptiesView | group4x.py:105-106 | an end date before the start date gives an empty view |
| Filtering.DefaultSelection | group4x.py:75-96 | every row of the sheet passes the widgets' initial selection |
| Filtering.AllPassIdentity | group4x.py:101-107 | a selection that every row passes leaves the sheet unchanged, order included |
| Filtering.DefaultSelectionIsIdentity | group4x.py:75-107 | with the default selection the filtered view equals the whole sheet |
| Filtering.DefaultCitiesAreSheetCities | group4x.py:75-79 | the default city list names each city once, exactly the cities that occur in the sheet, in order of first appearance |
| Filtering.DefaultProductLinesAreSheetProductLines | group4x.py:81-85 | the default product-line list names each product line once, exactly those in the sheet, in order of first appearance |
| Filtering.DefaultPaymentsAreSheetPayments | group4x.py:87-91 | the default payment list names each payment method once, exactly those in the sheet, in order of first appearance |
| Aggregate.Sum | group4x.py:114-116 | `.sum()` of a measure over rows, 0 for no rows (a definition; `GroupSumTotal` and `SeriesAgreeWithKpis` relate it to the series) |
| Aggregate.Matching | group4x.py:124-139 | one group of a group-by: a row occurs in it as often as in the rows when its key is the group's key, and not at all otherwise |
| Aggregate.GroupSum | group4x.py:124-139 | a group-by sum has an entry for exactly the keys present in the rows; absent keys get no zero entry |
| Aggregate.ValueCounts | group4x.py:130 | `value_counts()` has an entry for exactly the values present, and every count is positive |
| Aggregate.GroupSumPositive | group4x.py:130 | group sums of a measure that is positive on every row are positive |
| Aggregate.GroupSumAt | group4x.py:124-139 | each group-by entry, with 0 for an absent key, is the sum of the measure over the rows of that group |
| Aggregate.ValueCountsAt | group4x.py:130 | each payment count, with 0 for an absent value, is the number of rows with that value |
| Aggregate.GroupSumTotal | group4x.py:114-139 | the entries of a group-by sum add up, in any order, to the column's sum over all rows |
| Aggregate.ValueCountsTotal | group4x.py:130 | the counts add up to the number of rows |
| Dashboard.KpisOf | group4x.py:114-116 | on an empty view all three metrics are 0 |
| Dashboard.Summarize | group4x.py:114-139 | both product-line series have the product lines of the view as keys; the city, payment and date series have the view's cities, payments and dates as keys; every payment count is positive |
| Dashboard.BuildReport | group4x.py:101-139 | filter, then compute the metrics and series of the view (a definition; the lemmas below state its properties) |
| Dashboard.EmptyViewReport | group4x.py:114-139 | an empty view yields zero metrics and five empty series |
| Dashboard.SeriesAgreeWithKpis | group4x.py:114-139 | revenue by product line, by city and by date each add up to total revenue; quantity by product line adds up to total quantity; the payment counts add up to the number of rows in the view |
| Dashboard.SeriesKeysArePresentValues | group4x.py:101-139 | a city, product line, payment or date is a key of its series iff some row of the sheet with that value passes the filter |
| Dashboard.SeriesEntries | group4x.py:124-139 | each bar of each series is the revenue, quantity or row count of the rows in its group |
| Dashboard.EmptyCategoryReport | group4x.py:101-139 | deselecting every value of one category yields zero metrics and empty series |
| Dashboard.DefaultReportCoversSheet | group4x.py:75-139 | with the default selection the report is that of the whole sheet |
| Dashboard.Run | group4x.py:66-142 | no upload shows the prompt; an upload with fewer than two picked dates fails; otherwise the page shows the report of the picked selection |
| Dashboard.RunWithDefaultsShowsSheet | group4x.py:66-107 | after an upload, with the widgets at their initial values, the page shows the report of the whole sheet |
| Scenarios.CityAOnly | group4x.py:101-130 | on the three-row sheet, city A alone keeps rows 1 and 3: revenue 150.00, profit 15.00, quantity 6, Drinks 150.00, city A 150.00, one Cash and one Card |
| Scenarios.NoProductLines | group4x.py:101-139 | on the three-row sheet, no product line selected gives the empty report |
| Scenarios.SecondDayOnly | group4x.py:101-114 | on the three-row sheet, the range 2024-01-02 to 2024-01-02 keeps only row 2, with revenue 200.00 |
| Locale.TablesShareKeys | group4x.py:16-51 | the table has exactly the tags `id` and `en`, and both label tables have the same fifteen keys |
| Locale.SelectLabels | group4x.py:56-57 | "Bahasa" selects the `id` table and any other choice the `en` table; either way every label key is defined |
| Locale.ChoicesGiveDistinctTables | group4x.py:56-57 | the two options of the select box give different tables, titled in Indonesian and in English |

## Left out

- Page setup, sidebar widgets, metric and chart rendering: these are calls into the Streamlit UI library. The widget values are parameters of the model.
- The pie chart and its percentage labels: these are floating-point rendering by matplotlib.
- File upload, `pd.read_excel` and the `pd.to_datetime` coercion of the `Date` column: these are I/O and parsing in a library. The model starts from a sequence of rows, and a failed parse is not modelled.
- Floating-point `Total` and `gross income`, and the `:,.2f` formatting of the metrics: money is modelled as integer cents.
- Dashboard.KpisOf: does not model the `int(...)` truncation of a fractional quantity sum, because quantities are integers from the start.
- The time of day of a `Date` value: dates are whole day numbers. A timestamp later than midnight on the end date would fail `<= pd.to_datetime(end)` in the script, and the model cannot express that.
- The order of the series: `groupby` sorts by key and `value_counts` sorts by count. The model's series are maps, which are unordered. Only the default lists from `unique()` keep their order.
- Missing (NaN) cells: pandas skips them in sums and group-by drops NaN keys by default, and its `isin`/`unique()` handling of NaN is not modelled. The model's rows are always complete.
- Filtering.DefaultSelection: requires a non-empty sheet. On an empty sheet `min()`/`max()` of the dates are not-a-time, which is not modelled.
- Filtering.Select: its contract states order and the number of rows kept for any mask; which rows are kept is stated for the filter's own mask, by `Filtering.FilteredMembership` and `Filtering.FilteredMultiplicity`.
- Aggregate.MapSum is a ghost function. It is the order-free sum used to state that a series adds up to its total. It is a specification device, not something the script computes.
