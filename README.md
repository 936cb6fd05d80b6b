# Stock-movement reshaping pipeline, modelled in Dafny

The pipeline reads two long-format extracts from a warehouse database:
- the stock-movement rows (`zmb51`: material, site `centro`, quantity `qtd_um_registro`, sales channel, posting date);
- the stock rows (`zstok`: material, `estoque_total`, site).

It reshapes them into two wide reports keyed by material:
- **The CE07 report** holds CE07's movements summed per calendar month, followed by two trailing averages (`media_3m`, `media_6m`) and CE07's stock.
- **The other-sites report** holds the same for every other site. After the averages come the stock of every site except CE07 and a fixed `possivel_reducao` estimate for five materials.

The model covers the reshaping core of `Main.py`. Each step is named below with the Dafny member that defines it and the members whose contracts state what it does:
- `process_zstok`, a mean pivot of stock by material and site, is `MatrixBuilder.ProcessZstok`. It is built on the generic `Pivot.PivotTable`. Its contracts are `StockPivotShape` and `StockCell`.
- `process_zmb51` is the method `MatrixBuilder.ProcessZmb51`:
  - it assigns the `ano_mes` month column to the caller's frame in place (`MovementFrame.AssignMonthColumn`, whose result on values is `MatrixBuilder.Bucket`);
  - it splits the rows on site CE07 (`Partitioner.AtSite` and `AwayFromSite`, with contract `Partition`);
  - it pivots each part with `create_pivot`.
- `create_pivot` is the method `MatrixBuilder.CreatePivot`, equal to the function `MatrixBuilder.Averaged(MonthPivot(df))`:
  - a sum pivot by material and month (`MonthPivot`, with contracts `MonthPivotRows`, `MonthPivotColumns` and `MonthCell`), then `sort_index` (`WideMatrix.SortIndex`);
  - `media_3m` over `iloc[:, -3:]` (`Media3mColumn`, built from `WideMatrix.RowMeans` and `Aligned`, with contract `Media3m`);
  - `media_6m` over `iloc[:, -6:]` (`Media6mColumn`, with contracts `SixWindow` and `Media6m`).
- `create_final_datasets` is `ReportAssembler.CreateFinalDatasets`:
  - the CE07 column is selected from the stock pivot and dropped from it (`SelectColumn`, `DropColumn`); both raise a `KeyError` when the column is absent;
  - the reduction table (`ReductionTable`);
  - the two outer-join concatenations (`WideMatrix.Concat`). The contracts are `Ce07Report` and `OtherReport`.
- `main`, between loading and exporting, is the method `Pipeline.Run`, as the composition of these steps. Its result is the function `Pipeline.Reports`, with contracts `ReportsFail`, `ReportRows`, `Ce07ReportColumns` and `OtherReportColumns`.

A wide table is a `Matrix`:
- a set of material rows;
- an ordered sequence of labelled `Column`s, each a map from material to value. A row missing from a column's map is NaN in that column.

Column labels are either months (`Period`) or names (`Name`), which mirrors pandas' `Period` and string labels. The steps that change their caller's data in place are classes:
- the movement frame that gains `ano_mes`;
- the pivot frame that `create_pivot` sorts and extends column by column.

The rest is functions over values, with lemmas about them.

Files:
- `wrappers.dfy`: `Option` and `Result`.
- `seqs.dfy`: filtering, interleaving, de-duplication.
- `labelorder.dfy`: month and label order.
- `matrix.dfy`: the wide matrix, with sort, assignment, row means and concat.
- `records.dfy`: input rows and month bucketing.
- `partitioner.dfy`: the CE07 split.
- `pivot.dfy`: `pivot_table`.
- `builder.dfy`: the three pivots and the two frames.
- `assembler.dfy`: `create_final_datasets`.
- `pipeline.dfy`: the composition and a worked run end to end.

`media_6m`'s name suggests a six-month mean. The code computes it after `media_3m` has been appended, so `iloc[:, -6:]` covers the last five month columns and `media_3m`. `MatrixBuilder.Media6m` states this behaviour. `MatrixBuilder.SixMonthsExample` shows the difference: for months 10, 20, …, 60 it gives 125/3, while the six-month mean is 35.

Main.py has no dedicated error for a missing CE07 column. pandas raises `KeyError`, and the model returns `KeyError(Name("CE07"))`.

## Model

| member | source | states |
|---|---|---|
| Partitioner.AtSite | Main.py:111 | every row kept by the `centro == "CE07"` mask is at CE07 |
| Partitioner.AwayFromSite | Main.py:110 | every row kept by the `centro != "CE07"` mask is at another site |
| Partitioner.PartitionMembership | Main.py:110-111 | an input row is in the CE07 part iff its site is CE07, and in the other part iff it is not |
| Partitioner.Partition | Main.py:110-111 | the two parts are disjoint, together they are the input as a multiset, and they interleave to the input in order |
| Seqs.FilterSplitMultiset | Main.py:110-111 | two complementary masks split a sequence into parts whose multisets add up to the whole |
| Seqs.FilterInterleaves | Main.py:110-111 | two complementary masks keep input order: the input is an interleaving of the two parts |
| Records.MonthOfMonotone | Main.py:107 | bucketing a date into its month respects chronological order |
| MatrixBuilder.MovementFrame.AssignMonthColumn | Main.py:106-107 | the frame's rows are unchanged and it gains an `ano_mes` entry per row, the month of that row's posting date |
| MatrixBuilder.ProcessZmb51 | Main.py:104-117 | the caller's frame keeps its records and gains `ano_mes`; the results are the averaged month pivots of the rows away from CE07 and at CE07 |
| Pipeline.MaskedMonths | Main.py:106-125 | the month pivot of a site mask over the bucketed rows has as columns exactly the posting months of the movements the mask selects, strictly ascending |
| Pipeline.Ce07Months | Main.py:106-125 | the CE07 pivot's columns are exactly `Period(MonthOf(d))` for the posting dates `d` of the movements at CE07, strictly ascending |
| Pipeline.SemCe07Months | Main.py:106-125 | the other pivot's columns are exactly the posting months of the movements at every other site, strictly ascending |
| Pipeline.LaterPostingLaterColumn | Main.py:107-125 | in such month columns a movement posted no earlier than another never lands in an earlier column |
| Pivot.MatchesEmpty | Main.py:101 | a (row, column) pair has values to aggregate exactly when some input entry carries it |
| Pivot.PivotRows | Main.py:101 | the pivot's rows are exactly the row keys of the entries, and no cell lies outside them |
| Pivot.PivotColumns | Main.py:101 | every entry's column key is a column; every column is some entry's key; each label occurs once; labels ascend |
| Pivot.KeyReachesColumn | Main.py:101 | reordering the grouped columns loses no column label |
| Pivot.PivotCell | Main.py:101 | a cell is NaN exactly when no entry has its row and column key; otherwise it is the aggregate of those entries' values |
| MatrixBuilder.StockMatches | Main.py:101 | the values a stock cell aggregates are the `estoque_total` of the rows of that material and site, in input order |
| MatrixBuilder.StockPivotShape | Main.py:99-101 | the stock pivot has one row per stocked material and one column per site, each once, in ascending order |
| MatrixBuilder.StockCell | Main.py:101 | a stock cell is the mean of `estoque_total` over that material and site (NaN when there is none) |
| MatrixBuilder.MovementMatches | Main.py:122-124 | the values a month cell sums are the `qtd_um_registro` of the rows of that material and month, in input order |
| MatrixBuilder.MonthPivotRows | Main.py:122-124 | the month pivot has exactly one row per material of its input rows |
| MatrixBuilder.MonthPivotColumns | Main.py:122-125 | every month that occurs is a column, every column is a month that occurs, and the columns run strictly forward in time |
| MatrixBuilder.Chronological | Main.py:125 | in sorted distinct month columns an earlier position is an earlier month |
| MatrixBuilder.AllChronological | Main.py:125 | sorted distinct month columns are in strictly increasing month order |
| MatrixBuilder.MonthCell | Main.py:122-124 | a month cell is the sum of the quantities of that material in that month, and NaN (not 0) when there are none |
| WideMatrix.SortIndex | Main.py:125 | `sort_index(axis=1)` keeps the rows, orders the columns and is a permutation of them |
| WideMatrix.SortIndexNoOp | Main.py:125 | sorting an already ordered table with distinct labels changes nothing, so the second sort after `pivot_table` is the identity |
| WideMatrix.SortKeepsDistinct | Main.py:125 | sorting keeps the labels distinct |
| WideMatrix.StrictlyAscending | Main.py:125 | adjacent labels of a sorted distinct sequence are strictly ascending |
| WideMatrix.MeanOf | Main.py:128-129 | the mean is NaN only for no values; otherwise mean × count = total |
| WideMatrix.TotalBounds | Main.py:128-129 | a sum of n values within [lo, hi] lies within [n·lo, n·hi] |
| WideMatrix.MeanBounds | Main.py:128-129 | the mean of values within [lo, hi] lies within [lo, hi] |
| WideMatrix.RowMeanBounds | Main.py:128-129 | `mean(axis=1)` gives a row a value exactly when it holds one in the window, and that value lies between the smallest and largest it holds there |
| WideMatrix.Last | Main.py:128-129 | `iloc[:, -k:]` is the last k columns, or all of them when there are fewer |
| WideMatrix.PresentValuesAppend | Main.py:128-129 | a row's present values over two adjacent column ranges are those of the first followed by those of the second |
| WideMatrix.Assigned | Main.py:128-129 | `frame[key] = series` keeps the rows, keeps the frame well formed and makes `key` a column label |
| WideMatrix.AssignedAppends | Main.py:128-129 | assigning a new label appends one column at the right, keeps every other column and holds the aligned values |
| MatrixBuilder.NamesAreNew | Main.py:128-129 | `media_3m` and `media_6m` are not month labels, so each assignment appends |
| MatrixBuilder.AveragedColumns | Main.py:127-129 | the averaged table is the month columns, then `media_3m`, then `media_6m` computed over the table that already holds `media_3m` |
| MatrixBuilder.AveragedShape | Main.py:127-129 | the averages keep the rows and the month columns and add exactly two columns, `media_3m` then `media_6m` |
| MatrixBuilder.Media3m | Main.py:128 | `media_3m` is the mean of the values present in the last (up to) three month columns, NaN when none is present |
| MatrixBuilder.SixWindow | Main.py:129 | the six-column window read after appending `media_3m` is the last (up to) five month columns, then `media_3m` |
| MatrixBuilder.Media6m | Main.py:129 | `media_6m` is the mean of the present values in the last (up to) five month columns together with the row's `media_3m` |
| MatrixBuilder.SixMonthsExample | Main.py:127-129 | for months 10…60, `media_3m` = 50 and `media_6m` = 125/3, while the six-month mean is 35 |
| MatrixBuilder.TwoMonthsExample | Main.py:127-129 | with only two months (5, 15) both windows shrink to what exists and both averages are 10 |
| MatrixBuilder.MissingMonthExample | Main.py:127-129 | a NaN month is left out of the mean rather than counted as 0 |
| MatrixBuilder.PivotFrame.constructor | Main.py:122-124 | the frame starts as the given well-formed table |
| MatrixBuilder.PivotFrame.SortByLabel | Main.py:125 | the frame becomes its column-sorted self |
| MatrixBuilder.PivotFrame.Assign | Main.py:128-129 | the frame becomes the result of assigning the series under the label |
| MatrixBuilder.CreatePivot | Main.py:120-131 | the step-by-step frame updates yield the month pivot followed by `media_3m` and then `media_6m` |
| ReportAssembler.SelectColumn | Main.py:137 | `frame[["CE07"]]` raises KeyError exactly when no column is labelled CE07; otherwise it keeps the rows and exactly the columns so labelled |
| ReportAssembler.DropColumn | Main.py:141 | `drop(columns=["CE07"])` raises KeyError exactly when no column is labelled CE07; otherwise it keeps the rows and every other column |
| ReportAssembler.DropKeepsDistinct | Main.py:141 | dropping CE07 from columns with distinct labels leaves distinct labels |
| WideMatrix.FilterKeepsDistinct | Main.py:141 | a column mask keeps distinct labels distinct |
| ReportAssembler.DropKeepsOrdered | Main.py:141 | dropping CE07 from ascending columns leaves them ascending |
| WideMatrix.FilterKeepsOrdered | Main.py:141 | a column mask keeps ascending columns ascending |
| Pipeline.OtherStockColumns | Main.py:141 | after dropping CE07, the stock columns are exactly the stocked sites other than CE07, each once, in ascending order |
| ReportAssembler.SelectDropSplit | Main.py:137-141 | the selected and the remaining stock columns are the stock columns split in order, nothing lost or duplicated |
| ReportAssembler.SelectUnique | Main.py:137 | when the labels are distinct, the selection is exactly the one CE07 column |
| ReportAssembler.FilterUnique | Main.py:137 | selecting a label that occurs once yields exactly that column |
| ReportAssembler.ReductionTable | Main.py:144-149 | the reduction table is well formed: each value belongs to one of its five materials |
| WideMatrix.Concat | Main.py:138 | `concat(axis=1)` has the union of its inputs' rows (outer join) |
| WideMatrix.ConcatCell | Main.py:151-153 | each input's columns appear unchanged at their offset, and a row the input lacks reads NaN there |
| WideMatrix.ConcatPair | Main.py:138 | the two-way concat is the row union and the columns side by side |
| WideMatrix.ConcatTriple | Main.py:151-153 | the three-way concat is the row union and the columns side by side in argument order |
| ReportAssembler.CreateFinalDatasets | Main.py:134-155 | assembly fails, with a KeyError on CE07, exactly when the stock pivot has no CE07 column |
| ReportAssembler.Ce07Report | Main.py:137-138 | the CE07 report has the rows of the CE07 pivot and the stock pivot, the pivot's columns and then CE07's stock column (exactly one when the stock labels are distinct) |
| ReportAssembler.Ce07ReportCell | Main.py:138 | a pivot cell keeps its value in the CE07 report; a material the pivot lacks is NaN in those columns |
| ReportAssembler.OtherReport | Main.py:141-153 | the other report has the rows of the other pivot, the stock pivot and the reduction table, and the pivot's columns, then the stock columns except CE07, then `possivel_reducao` |
| ReportAssembler.ReductionColumn | Main.py:144-153 | in the other report `possivel_reducao` is 11, 4, 50, 30, 2 for the five materials and NaN for every other material |
| Pipeline.Run | Main.py:178-185 | main's steps in call order produce the composed reports, leave the movement records unchanged and leave the caller's frame with its `ano_mes` column filled in |
| Pipeline.ReportsFail | Main.py:178-185 | the run fails, with a KeyError on CE07, exactly when no stock row is at CE07 |
| Pipeline.MaskedMaterials | Main.py:110-111 | a material occurs in a masked selection exactly when some movement row of it passes the mask |
| Pipeline.AveragedRows | Main.py:120-131 | the averaged pivot's rows are exactly the materials of its input rows |
| Pipeline.Ce07Rows | Main.py:111-115 | the CE07 pivot's rows are exactly the materials moved at CE07 |
| Pipeline.SemCe07Rows | Main.py:110-114 | the other pivot's rows are exactly the materials moved elsewhere |
| Pipeline.ReportRows | Main.py:178-185 | the CE07 report's rows are the materials moved at CE07 or stocked; the other report's are those moved elsewhere, stocked, or among the five reduction materials |
| Pipeline.Ce07ReportColumns | Main.py:178-185 | the CE07 report's columns are the posting months of the CE07 movements in ascending order, then `media_3m`, `media_6m` and CE07; there is no `possivel_reducao` column |
| Pipeline.OtherReportColumns | Main.py:178-185 | the other report's columns are the posting months of the movements elsewhere in ascending order, then `media_3m`, `media_6m`, one column per stocked site other than CE07 in ascending order, and last `possivel_reducao` |
| Pipeline.Scenario | Main.py:178-185 | worked run, from loaded rows to reports: CE07 report A8K3430 = [5, 15, media_3m 10, media_6m 10, CE07 100]; T671600 has `possivel_reducao` 2 in the other report |

## Left out

- Database access, the SQL queries and `load_data` (Main.py:11-96) are I/O. The model starts from the loaded rows.
- `fup` is loaded but never used by the reshaping steps.
- `main`'s early return when no engine is produced is not modelled; it depends on the connection.
- `export_to_json` (`reset_index`, the JSON file and the print) is file I/O.
- `pd.to_datetime` is not modelled. Dates arrive already parsed into year, month and day, so no date string fails to parse.
- Arithmetic is exact rational arithmetic on `real`, not floating point. Rounding in sums and means is not modelled, and `possivel_reducao`'s integer dtype is represented as `real`.
- NaN values inside the input columns are not modelled, nor is pandas dropping rows whose key is NaN in `pivot_table`. Every input value is present.
- Pandas' empty-input behaviour is not modelled. A pivot of empty rows here is the table with no rows and no columns.
- Row order is not modelled, because rows are a set. The row order of the reports and of the exported JSON is therefore not captured.
- Column order among duplicate labels is not fixed by the model, because the sort is only known to be ordered and a permutation. The stock and month pivots have distinct labels, so this does not arise in the pipeline.
- The order between a month label and a name label is an arbitrary tie-break, because the pipeline never sorts a table that holds both.
- Site names are ordered by code point, no locale.
- The in-place mutation of the movement frame is modelled as assignment to the frame's own fields. Aliasing of the same frame through other references is outside the model.

