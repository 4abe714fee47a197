# CPIMS infographics: the chart-update filter, in Dafny

The CPIMS infographics dashboard shows reported child-protection cases from a
case table loaded once at start-up and sorted by case date. Whenever the user
changes the county, the sub-county or the date range, the `update_charts`
callback re-filters the table and rebuilds three chart payloads:

- the "price" chart: case date against age, trace type `"lines"`;
- the "volume" chart: case date against sex, trace type `"line"`;
- the bar chart: case status against sex, trace type `"bar"`.

This project models that callback as pure functions over a sequence of case
records.

- `case_table.dfy` (module `CaseTable`) holds the record, the row predicate
  and the vectorised mask. It also holds the mask selection that keeps the
  true rows in table order, and the filter those two make up.
- `charts.dfy` (module `Charts`) holds the column projections and the three
  traces.

Dates are day ordinals (integers), so "on or after" and "on or before" are
integer comparisons. Ages are integers.

The callback is a pure function of its four inputs and the loaded table. In
the model it is a Dafny `function`, so it cannot modify the table, and equal
inputs give equal figures by construction. Two further facts are proved:
- rows that fail the filter never influence a chart;
- drawing from the filtered rows alone gives the same charts.

The bar chart plots the raw (case status, sex) columns of the filtered rows.
The callback does no counting or grouping; any aggregation happens inside the
charting library. The model follows the code here.

## Model

| member | source | states |
|---|---|---|
| `CaseTable.Mask` | app.py:169-174 | The mask has one entry per table row, and entry i is true exactly when row i satisfies `Matches`: county equal, sub-county equal, case date on or after the start date and on or before the end date. |
| `CaseTable.Select` | app.py:175 | The selection is no longer than the table. A row is in it exactly when some table position holding that row has a true mask entry. |
| `CaseTable.Filter` | app.py:168-175 | A record is in the result if and only if it is in the table, its county and sub-county equal the selected ones, and its date lies within the range, both ends included. |
| `CaseTable.KeptPositions` | app.py:175 | The positions at which the mask is true. They are strictly increasing, each one holds a true entry, and every true entry is listed. |
| `CaseTable.SelectAtKeptPositions` | app.py:175 | The k-th selected row is the table row at the k-th kept position. The selection has exactly one row per kept position. |
| `CaseTable.FilterIsOrderedSubsequence` | app.py:169-175 | The result is the table's subsequence at the matching positions, in increasing order. Every kept row matches, and no matching position is skipped. |
| `CaseTable.FilterPreservesDateOrder` | app.py:175 | When the table is sorted by date (as it is at load, app.py line 12), so is the filter result. |
| `CaseTable.BoundsAreInclusive` | app.py:172-173 | A table row with the right county and sub-county is kept when its date equals the start date or the end date. |
| `CaseTable.EmptyDateRange` | app.py:172-173 | A start date after the end date keeps no row. |
| `CaseTable.UnknownLocation` | app.py:170-171 | A county or sub-county that no row holds gives an empty result, not an error. |
| `CaseTable.SelectNone` | app.py:175 | A mask with no true entry selects nothing. |
| `CaseTable.SelectAppend` | app.py:175 | Selecting from two tables placed end to end, with their masks placed end to end, joins the two selections. |
| `CaseTable.FilterAppend` | app.py:169-175 | The filter decides row by row: filtering a concatenation joins the filters of its parts. |
| `CaseTable.FilterSingle` | app.py:169-175 | A one-row table keeps its row exactly when that row matches. |
| `CaseTable.FilterIdempotent` | app.py:169-175 | Filtering the result again with the same values returns it unchanged. |
| `Charts.Column` | app.py:179-180 | A projected column has one entry per row, and entry i is the field of row i. |
| `Charts.Project` | app.py:176-221 | A figure's data trace: the x and y series each have one entry per row, the i-th pair is the two chosen fields of row i, and the trace carries the declared type string. |
| `Charts.UpdateCharts` | app.py:168-233 | Each trace's x and y series have one entry per filtered row. The i-th pair holds row i's fields: (case date, age), (case date, sex) and (case status, sex). The trace types are "lines", "line" and "bar". |
| `Charts.PointsComeFromMatchingRows` | app.py:176-221 | Every point i of the three traces comes from one table row that passes the filter. The price chart's date at i lies within the inclusive range. |
| `Charts.TimeAxisAscending` | app.py:176-203 | On a date-sorted table, the date axes of the price and volume charts are non-decreasing. |
| `Charts.EmptyRangeBlankCharts` | app.py:168-221 | A start date after the end date gives three charts with empty series. |
| `Charts.NonMatchingRowsIrrelevant` | app.py:168-233 | Appending rows that fail the filter changes none of the three figures. |
| `Charts.ChartsDependOnlyOnFilteredRows` | app.py:168-233 | Running the callback on the filtered rows instead of the whole table gives identical figures. |
| `Charts.MalavaJanuaryScenario` | app.py:168-233 | Take a Malava case of 5 January and a Lurambi case of 1 February, filtered by Kakamega/Malava for January. Only the first case is charted: x = [5 January], y = [10], bar x = ["Open"]. |

## Left out

- Reading the CSV file and parsing its DD/MM/YY dates (app.py lines 10-11): this is file I/O and library parsing. The model takes an already-parsed sequence of records.
- The load-time sort by case date (app.py line 12): this is a library sort. Sortedness is a precondition of the lemmas that need it.
- Turning the date picker's date strings into comparable timestamps (app.py lines 164-165, 172-173): dates are integers throughout. A cleared date picker (no date at all) is not modelled.
- Page layout, styling, sidebar and navigation (app.py lines 14-154). Also left out are the constant title, axis, colour and hover-template entries of each figure (app.py lines 181-194, 205-210, 223-229). They are static data with no behaviour.
- The module-level bar figure over the whole table (app.py line 156): this is a call into the plotting library and does not respond to the filters.
- The callback wiring and the server start (app.py lines 159-167, 236-237): these are framework dispatch and HTTP plumbing.
- Pandas index labels: the filtered frame keeps the row labels of the loaded table. The model tracks positions within the sorted table instead (`KeptPositions`). No chart reads the labels.
- Non-integer or missing ages, and missing values in the text columns: every field is a plain value.
