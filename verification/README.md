# POS billing analytics — a Dafny model

`pos.py` is a Streamlit dashboard over a point-of-sale line-item sheet. It
loads the sheet, normalises the column names and stops with an error when
one of the eight required columns is missing. It then computes the
headline metrics (total sales, number of bills, total quantity, number of
distinct items), one summary row per bill and the two basket averages,
sales per till (`pos_sales`), per item ranked by sales (`item_sales`) and
per `tran_date` value (`daily_sales`), and finally the ten fastest and ten
slowest movers.

The model keeps that pipeline and makes each step a pure function:

- `wrappers.dfy` — `Option` and `Result`.
- `schema.dfy` (module `Schema`) — `str.strip()`, ASCII lower-casing,
  space-to-underscore, and the first-missing-column check of `load_data`.
- `aggregation.dfy` (module `Aggregation`) — column sums, means, distinct
  key sets and a `groupby` that builds one group per distinct key. It is
  proved to partition the rows (every group holds exactly the rows that
  carry its key) and to conserve every column total.
- `ranking.dfy` (module `Ranking`) — a descending sort, `head(n)` and
  `tail(n)`.
- `pos.dfy` (module `Pos`) — the line-item record, every table the script
  builds, the `Report` holding all of them, and `Dashboard`, which runs the
  header check and then the analytics.

Money and quantities are exact integers (think of them as cents and
units). A `tran_date` is an opaque integer: the model only groups by it; parsing and plotting are left out.

## Model

| member | source | states |
|---|---|---|
| Schema.Strip | pos.py:16 | the stripped name is a contiguous slice of the input; everything cut from either end is whitespace as Python's `str.isspace` defines it; the result neither starts nor ends with whitespace |
| Schema.Normalise | pos.py:16 | a normalised name is the stripped name mapped character by character: each space becomes `_`, each ASCII capital its lower-case letter, every other character stays; the result has no surrounding whitespace, no upper-case ASCII letter and no space |
| Schema.NormaliseFixes | pos.py:16 | normalisation leaves a name unchanged exactly when the name is already in normal form |
| Schema.NormaliseIdempotent | pos.py:16 | normalising an already normalised header changes nothing |
| Schema.NormaliseAll | pos.py:16 | the header keeps its length and every column name comes out in normal form |
| Schema.FirstMissing | pos.py:22-25 | reports nothing exactly when every required name is present; otherwise reports a missing required name all of whose predecessors in the list are present |
| Schema.LoadColumns | pos.py:12-27 | loading succeeds exactly when all eight required names occur among the normalised columns, and then returns those columns; otherwise the error names the first required column, in list order, that is missing |
| Aggregation.Mean | pos.py:54-55 | the mean exists exactly for a non-empty column, and the mean times the row count equals the column sum |
| Aggregation.KeysOfBound | pos.py:36-38 | a column never has more distinct values than rows, and has none exactly when there are no rows |
| Aggregation.GroupByPartitions | pos.py:36 | grouping yields one group per distinct key; group keys are distinct, no group is empty, and each group holds exactly the rows that carry its key, in their original order |
| Aggregation.GroupByConserves | pos.py:49-52 | the per-group sums of a column add up to the column's total |
| Aggregation.GroupTotalsSpec | pos.py:66 | a `groupby(key)[col].sum()` table has one row per distinct key, with no key repeated and no key missing; each row's total is the sum over exactly that key's rows, and the totals add up to the column sum |
| Ranking.SortDescSorts | pos.py:76 | the descending sort is a permutation of its input in non-increasing score order |
| Ranking.SortDescSum | pos.py:76 | sorting keeps every column total |
| Ranking.SortDescDistinct | pos.py:76 | sorting keeps a repeat-free key column repeat-free |
| Ranking.HeadTailOverlap | pos.py:94-95 | `head(n)` and `tail(n)` are the prefix and the suffix of min(n, rows) rows; they share a position exactly when the table is non-empty and shorter than 2n rows |
| Ranking.HeadTailRank | pos.py:94-95 | on a ranked table, no row after the head outscores a head row, and no row before the tail scores below a tail row |
| Pos.TotalBillsBounds | pos.py:36 | there are never more bills than line items, and no bills exactly when there are no line items |
| Pos.BillSummaryKeys | pos.py:49-52 | `bill_summary` has one row per distinct (pos_name, tran_no) pair, so `total_bills` rows, with no pair repeated and none missing |
| Pos.BillSummaryTotals | pos.py:49-52 | each bill row's `bill_total` and `items_in_bill` are the sums over exactly that bill's lines; the columns add up to `total_sales` and `total_qty` |
| Pos.BillFigures | pos.py:35-55 | the bill count and the bill column sums that the averages divide |
| Pos.AvgBasketValueSpec | pos.py:54 | the average basket value exists exactly when rows were loaded, and times `total_bills` equals `total_sales` |
| Pos.AvgBasketSizeSpec | pos.py:55 | the average basket size exists exactly when rows were loaded, and times `total_bills` equals `total_qty` |
| Pos.PosSalesSpec | pos.py:66 | `pos_sales` has one row per till; each row is the sum of `item_total` over that till's lines; the rows add up to `total_sales` |
| Pos.ItemTableSpec | pos.py:73-75 | the per-item aggregation has `unique_items` rows with distinct names covering every item; each row holds its item's summed quantity and sales; the columns add up to `total_qty` and `total_sales` |
| Pos.ItemSalesSpec | pos.py:73-76 | `item_sales` is a permutation of the per-item aggregation in non-increasing sales order, with all of the aggregation's per-item and column-total properties |
| Pos.DailySalesSpec | pos.py:83-84 | `daily_sales` has one row per distinct `tran_date` value (the full timestamp); each row is that value's summed `item_total`; the rows add up to `total_sales` |
| Pos.MoversSpec | pos.py:94-95 | fast movers are the first and slow movers the last min(10, n) rows of `item_sales`; the two lists share a row exactly when 0 < n < 20; the first fast mover sells at least as much as any item; no item after the fast movers outsells one of them; no item before the slow movers sells less than one of them |
| Pos.AnalyseBills | pos.py:35-55 | in the computed report, `total_bills` counts the `bill_summary` rows, is at most the number of line items and is zero only without them; the bill columns add up to the headline totals |
| Pos.AnalyseAverages | pos.py:49-55 | in the computed report, the averages exist exactly when there are bills, and spread the headline totals evenly over the bills |
| Pos.AnalyseTables | pos.py:35-84 | in the computed report, `pos_sales`, `daily_sales` and `item_sales` add up to the headline totals, and `item_sales` has `unique_items` rows ranked by sales |
| Pos.AnalyseMovers | pos.py:94-95 | in the computed report, the movers are a prefix and a suffix of `item_sales` of exactly min(10, n) rows each |
| Pos.AnalyseAgrees | pos.py:35-95 | every figure the dashboard shows side by side is consistent with the others |
| Pos.Dashboard | pos.py:12-29 | the run stops exactly when a required column is missing after normalisation, naming the first missing one in list order; otherwise it yields the full report of the loaded rows |

## Left out

- Reading the Excel file, `st.cache_data`, the page set-up and all `st.*` rendering (metrics, tables, charts, messages) are I/O. `Dashboard` takes the header and the rows as parameters and returns the error instead of showing it and stopping.
- `pd.to_datetime` (pos.py:83) is not modelled. `tran_date` is an already parsed, opaque integer key, and unparseable dates are not modelled.
- Floating point: quantities and amounts are exact integers and the averages are exact reals. The `round(…, 2)` in the display calls is presentation only.
- Schema.Normalise: lower-casing covers the ASCII letters only, while Python's `str.lower` also maps non-ASCII letters. Non-string column labels, which pandas' `.str` accessor turns into NaN, are not modelled.
- pandas drops rows whose grouping key is NaN, and `nunique` ignores NaN. In the model every key field is always present.
- Group order: pandas sorts group keys; the model lists groups in order of first appearance. No stated property depends on that order.
- Ties in the sales ranking: pandas' default sort is not stable, so the model promises nothing about the order of equal sales (Ranking.SortDescSorts states only permutation and order).
- Columns other than the eight required ones are carried through the header check but never used, so rows hold only the required fields. `barcode` and `rate` are carried but no computation reads them.
- `item_name` values are grouped exactly as loaded. The code never trims them; the model follows the code.
- Missing amounts: pandas' `sum` skips NaN, so a missing `qty` or `item_total` counts as 0 in every total (pos.py:35, 37, 49-52, 66, 73-75, 84). The model has no missing amounts; a row whose amount is absent in the sheet is represented with 0.
- Pos.Dashboard: does not model duplicate column names. Two header names that normalise to the same required name (say "POS Name" and "pos_name") pass the check at pos.py:22-25, and pandas would then reject the ambiguous label in the `groupby` at pos.py:36; the model returns a full report in that case, because rows hold one value per required column.
- Market-basket and item-association analysis is not part of `pos.py`, so it is not part of this model.
