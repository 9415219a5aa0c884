/** The POS billing dashboard: the line-item table it loads, the headline
    metrics, the bill-level, POS-level, item-level and per-timestamp tables,
    and the fast/slow movers it displays. Every table is a pure function of
    the loaded rows; rendering is not modelled. */
module Pos {
  import opened Wrappers
  import opened Aggregation
  import opened Ranking
  import Schema

  /** One sold line of a bill, with the eight required columns. `tranDate`
      stands for the parsed timestamp and is only used as a grouping key. */
  datatype LineItem = LineItem(
    barcode: string,
    itemName: string,
    qty: int,
    posName: string,
    tranNo: string,
    tranDate: int,
    rate: int,
    itemTotal: int)

  function Qty(r: LineItem): int { r.qty }
  function ItemTotal(r: LineItem): int { r.itemTotal }
  function PosName(r: LineItem): string { r.posName }
  function ItemName(r: LineItem): string { r.itemName }
  function TranDate(r: LineItem): int { r.tranDate }

  /** A bill is identified by its till and its transaction number together:
      transaction numbers repeat across tills. */
  datatype BillKey = BillKey(posName: string, tranNo: string)

  function BillOf(r: LineItem): BillKey { BillKey(r.posName, r.tranNo) }

  // ---------------------------------------------------------------------
  // Basic metrics
  // ---------------------------------------------------------------------

  function TotalSales(rows: seq<LineItem>): int { Sum(rows, ItemTotal) }

  function TotalQty(rows: seq<LineItem>): int { Sum(rows, Qty) }

  /** `item_name.nunique()`. */
  function UniqueItems(rows: seq<LineItem>): nat { |KeysOf(rows, ItemName)| }

  /** `groupby(["pos_name", "tran_no"]).ngroups`. */
  function TotalBills(rows: seq<LineItem>): nat { |KeysOf(rows, BillOf)| }

  /** There are never more bills than rows, and no bills exactly when there
      are no rows. */
  lemma TotalBillsBounds(rows: seq<LineItem>)
    ensures TotalBills(rows) <= |rows|
    ensures TotalBills(rows) == 0 <==> |rows| == 0
  {
    KeysOfBound(rows, BillOf);
  }

  // ---------------------------------------------------------------------
  // Bill-level metrics
  // ---------------------------------------------------------------------

  /** One row of `bill_summary`. */
  datatype BillRow = BillRow(posName: string, tranNo: string, billTotal: int, itemsInBill: int)

  function BillTotal(b: BillRow): int { b.billTotal }
  function ItemsInBill(b: BillRow): int { b.itemsInBill }
  function KeyOfBill(b: BillRow): BillKey { BillKey(b.posName, b.tranNo) }

  /** `bill_summary`: per bill, the sum of `item_total` and of `qty`. */
  function BillSummary(rows: seq<LineItem>): seq<BillRow>
  {
    var gs := GroupBy(rows, BillOf);
    seq(|gs|, i requires 0 <= i < |gs| =>
      BillRow(gs[i].key.posName, gs[i].key.tranNo, Sum(gs[i].rows, ItemTotal), Sum(gs[i].rows, Qty)))
  }

  /** `bill_summary` has one row per distinct (pos_name, tran_no) pair, so as
      many rows as `total_bills`. */
  lemma BillSummaryKeys(rows: seq<LineItem>)
    ensures |BillSummary(rows)| == TotalBills(rows)
    ensures Distinct(BillSummary(rows), KeyOfBill)
    ensures KeysOf(BillSummary(rows), KeyOfBill) == KeysOf(rows, BillOf)
  {
    var gs := GroupBy(rows, BillOf);
    var bs := BillSummary(rows);
    GroupByPartitions(rows, BillOf);
    assert forall i :: 0 <= i < |bs| ==> KeyOfBill(bs[i]) == gs[i].key;
    assert KeysOf(bs, KeyOfBill) == GroupKeys(gs);
  }

  /** Each `bill_summary` row totals exactly its bill's lines, and the
      columns add up to `total_sales` and `total_qty`. */
  lemma BillSummaryTotals(rows: seq<LineItem>)
    ensures var bs := BillSummary(rows);
      forall i :: 0 <= i < |bs| ==>
        && bs[i].billTotal == Sum(Select(rows, BillOf, KeyOfBill(bs[i])), ItemTotal)
        && bs[i].itemsInBill == Sum(Select(rows, BillOf, KeyOfBill(bs[i])), Qty)
    ensures Sum(BillSummary(rows), BillTotal) == TotalSales(rows)
    ensures Sum(BillSummary(rows), ItemsInBill) == TotalQty(rows)
  {
    var gs := GroupBy(rows, BillOf);
    var bs := BillSummary(rows);
    GroupByPartitions(rows, BillOf);
    GroupByConserves(rows, BillOf, ItemTotal);
    GroupByConserves(rows, BillOf, Qty);
    TableOfGroups(gs, ItemTotal, bs, BillTotal);
    TableOfGroups(gs, Qty, bs, ItemsInBill);
  }

  /** Average basket value: absent when there are no bills (pandas gives
      NaN), otherwise the mean `bill_total`. */
  function AvgBasketValue(rows: seq<LineItem>): Option<real>
  {
    Mean(BillSummary(rows), BillTotal)
  }

  /** Average basket size: the mean `items_in_bill`, absent without bills. */
  function AvgBasketSize(rows: seq<LineItem>): Option<real>
  {
    Mean(BillSummary(rows), ItemsInBill)
  }

  /** The bill count and the bill column totals, as the averages use them. */
  lemma BillFigures(rows: seq<LineItem>)
    ensures |BillSummary(rows)| == TotalBills(rows)
    ensures TotalBills(rows) == 0 <==> |rows| == 0
    ensures Sum(BillSummary(rows), BillTotal) == TotalSales(rows)
    ensures Sum(BillSummary(rows), ItemsInBill) == TotalQty(rows)
  {
    BillSummaryKeys(rows);
    BillSummaryTotals(rows);
    TotalBillsBounds(rows);
  }

  /** The average basket value exists exactly when rows were loaded, and is
      `total_sales` spread evenly over the bills. */
  lemma AvgBasketValueSpec(rows: seq<LineItem>)
    ensures AvgBasketValue(rows).Some? <==> |rows| > 0
    ensures AvgBasketValue(rows).Some? ==>
      AvgBasketValue(rows).value * (TotalBills(rows) as real) == TotalSales(rows) as real
  {
    BillFigures(rows);
    MeanTimesCount(BillSummary(rows), BillTotal, TotalBills(rows), TotalSales(rows));
  }

  /** The average basket size exists exactly when rows were loaded, and is
      `total_qty` spread evenly over the bills. */
  lemma AvgBasketSizeSpec(rows: seq<LineItem>)
    ensures AvgBasketSize(rows).Some? <==> |rows| > 0
    ensures AvgBasketSize(rows).Some? ==>
      AvgBasketSize(rows).value * (TotalBills(rows) as real) == TotalQty(rows) as real
  {
    BillFigures(rows);
    MeanTimesCount(BillSummary(rows), ItemsInBill, TotalBills(rows), TotalQty(rows));
  }

  // ---------------------------------------------------------------------
  // POS-level and per-timestamp sales
  // ---------------------------------------------------------------------

  /** `pos_sales`: `item_total` summed per till. */
  function PosSales(rows: seq<LineItem>): seq<KeyTotal<string>>
  {
    GroupTotals(rows, PosName, ItemTotal)
  }

  /** One row per distinct till, each the sum over that till's lines, the
      rows adding up to `total_sales`. */
  lemma PosSalesSpec(rows: seq<LineItem>)
    ensures var t := PosSales(rows);
      && |t| == |KeysOf(rows, PosName)|
      && Distinct(t, KeyOf)
      && KeysOf(t, KeyOf) == KeysOf(rows, PosName)
      && (forall i :: 0 <= i < |t| ==> t[i].total == Sum(Select(rows, PosName, t[i].key), ItemTotal))
      && Sum(t, TotalOf) == TotalSales(rows)
  {
    GroupTotalsSpec(rows, PosName, ItemTotal);
  }

  /** `daily_sales`: `item_total` summed per distinct `tran_date` value. The
      key is the full timestamp, not the calendar day. */
  function DailySales(rows: seq<LineItem>): seq<KeyTotal<int>>
  {
    GroupTotals(rows, TranDate, ItemTotal)
  }

  /** One row per distinct timestamp, each the sum over the lines carrying
      it, the rows adding up to `total_sales`. */
  lemma DailySalesSpec(rows: seq<LineItem>)
    ensures var t := DailySales(rows);
      && |t| == |KeysOf(rows, TranDate)|
      && Distinct(t, KeyOf)
      && KeysOf(t, KeyOf) == KeysOf(rows, TranDate)
      && (forall i :: 0 <= i < |t| ==> t[i].total == Sum(Select(rows, TranDate, t[i].key), ItemTotal))
      && Sum(t, TotalOf) == TotalSales(rows)
  {
    GroupTotalsSpec(rows, TranDate, ItemTotal);
  }

  // ---------------------------------------------------------------------
  // Item-level sales and movers
  // ---------------------------------------------------------------------

  /** One row of `item_sales`. */
  datatype ItemRow = ItemRow(itemName: string, totalQty: int, totalSales: int)

  function NameOf(r: ItemRow): string { r.itemName }
  function QtyOf(r: ItemRow): int { r.totalQty }
  function SalesOf(r: ItemRow): int { r.totalSales }

  /** The row holds the quantity and sales summed over exactly the lines of
      its item. */
  ghost predicate TotalsItem(rows: seq<LineItem>, r: ItemRow)
  {
    && r.totalQty == Sum(Select(rows, ItemName, r.itemName), Qty)
    && r.totalSales == Sum(Select(rows, ItemName, r.itemName), ItemTotal)
  }

  /** The per-item aggregation before sorting. */
  function ItemTable(rows: seq<LineItem>): seq<ItemRow>
  {
    var gs := GroupBy(rows, ItemName);
    seq(|gs|, i requires 0 <= i < |gs| =>
      ItemRow(gs[i].key, Sum(gs[i].rows, Qty), Sum(gs[i].rows, ItemTotal)))
  }

  lemma ItemTableSpec(rows: seq<LineItem>)
    ensures var t := ItemTable(rows);
      && |t| == UniqueItems(rows)
      && Distinct(t, NameOf)
      && KeysOf(t, NameOf) == KeysOf(rows, ItemName)
      && (forall i :: 0 <= i < |t| ==> TotalsItem(rows, t[i]))
      && Sum(t, QtyOf) == TotalQty(rows)
      && Sum(t, SalesOf) == TotalSales(rows)
  {
    var gs := GroupBy(rows, ItemName);
    var t := ItemTable(rows);
    GroupByPartitions(rows, ItemName);
    GroupByConserves(rows, ItemName, Qty);
    GroupByConserves(rows, ItemName, ItemTotal);
    TableOfGroups(gs, Qty, t, QtyOf);
    TableOfGroups(gs, ItemTotal, t, SalesOf);
    assert forall i :: 0 <= i < |t| ==> NameOf(t[i]) == gs[i].key;
    assert KeysOf(t, NameOf) == GroupKeys(gs);
  }

  /** `item_sales`: per item, quantity and sales, by descending sales. */
  function ItemSales(rows: seq<LineItem>): seq<ItemRow>
  {
    SortDesc(ItemTable(rows), SalesOf)
  }

  /** `item_sales` is a reordering of the per-item aggregation: one row per
      distinct item (so `unique_items` rows), each totalling exactly that
      item's lines, in non-increasing order of sales, with the quantity and
      sales columns adding up to `total_qty` and `total_sales`. */
  lemma ItemSalesSpec(rows: seq<LineItem>)
    ensures var s := ItemSales(rows);
      && multiset(s) == multiset(ItemTable(rows))
      && NonIncreasing(s, SalesOf)
      && |s| == UniqueItems(rows)
      && Distinct(s, NameOf)
      && KeysOf(s, NameOf) == KeysOf(rows, ItemName)
      && (forall i :: 0 <= i < |s| ==> TotalsItem(rows, s[i]))
      && Sum(s, QtyOf) == TotalQty(rows)
      && Sum(s, SalesOf) == TotalSales(rows)
  {
    var t := ItemTable(rows);
    var s := ItemSales(rows);
    ItemTableSpec(rows);
    SortDescSorts(t, SalesOf);
    assert |s| == |multiset(s)| == |multiset(t)| == |t|;
    SortDescDistinct(t, SalesOf, NameOf);
    KeysOfPermutation(s, t, NameOf);
    forall i | 0 <= i < |s| ensures TotalsItem(rows, s[i]) {
      assert s[i] in multiset(t);
      var j :| 0 <= j < |t| && t[j] == s[i];
    }
    SortDescSum(t, SalesOf, QtyOf);
    SortDescSum(t, SalesOf, SalesOf);
  }

  /** How many rows `head` and `tail` show. */
  const MoverCount: nat := 10

  /** `fast_movers`: `item_sales.head(10)`. */
  function FastMovers(items: seq<ItemRow>): seq<ItemRow> { Head(items, MoverCount) }

  /** `slow_movers`: `item_sales.tail(10)`. */
  function SlowMovers(items: seq<ItemRow>): seq<ItemRow> { Tail(items, MoverCount) }

  /** Fast movers are the first and slow movers the last min(10, n) rows of
      `item_sales`; the two lists share a row exactly when 0 < n < 20; the
      first fast mover sells at least as much as any item; no item outside
      the fast movers outsells a fast mover, and no item outside the slow
      movers sells less than a slow mover. */
  lemma MoversSpec(rows: seq<LineItem>)
    ensures var s := ItemSales(rows);
      var fast := FastMovers(s);
      var slow := SlowMovers(s);
      && |fast| == |slow| == (if |s| < MoverCount then |s| else MoverCount)
      && fast == s[..|fast|]
      && slow == s[|s| - |slow|..]
      && ((exists p :: InHeadAndTail(s, MoverCount, p)) <==> 0 < |s| < 2 * MoverCount)
      && (|s| > 0 ==> forall i :: 0 <= i < |s| ==> fast[0].totalSales >= s[i].totalSales)
      && (forall i, j :: 0 <= i < |fast| <= j < |s| ==> fast[i].totalSales >= s[j].totalSales)
      && (forall i, j :: 0 <= i < |slow| && 0 <= j < |s| - |slow| ==> s[j].totalSales >= slow[i].totalSales)
  {
    var s := ItemSales(rows);
    assert NonIncreasing(s, SalesOf) by { ItemSalesSpec(rows); }
    HeadTailOverlap(s, MoverCount);
    HeadTailRank(s, MoverCount, SalesOf);
  }

  // ---------------------------------------------------------------------
  // The whole dashboard
  // ---------------------------------------------------------------------

  /** Everything the dashboard computes from the loaded rows. */
  datatype Report = Report(
    totalSales: int,
    totalBills: nat,
    totalQty: int,
    uniqueItems: nat,
    billSummary: seq<BillRow>,
    avgBasketValue: Option<real>,
    avgBasketSize: Option<real>,
    posSales: seq<KeyTotal<string>>,
    itemSales: seq<ItemRow>,
    dailySales: seq<KeyTotal<int>>,
    fastMovers: seq<ItemRow>,
    slowMovers: seq<ItemRow>)

  /** `total_bills` counts the rows of `bill_summary`, is at most the row
      count and zero only without rows; the bill columns add up to the
      headline totals. */
  ghost predicate BillFiguresAgree(rep: Report, rowCount: nat)
  {
    && rep.totalBills == |rep.billSummary| <= rowCount
    && (rep.totalBills == 0 <==> rowCount == 0)
    && Sum(rep.billSummary, BillTotal) == rep.totalSales
    && Sum(rep.billSummary, ItemsInBill) == rep.totalQty
  }

  /** The averages exist exactly when there are bills, and spread the
      headline totals evenly over them. */
  ghost predicate AveragesAgree(rep: Report)
  {
    && (rep.avgBasketValue.Some? <==> rep.totalBills > 0)
    && (rep.avgBasketValue.Some? ==>
          rep.avgBasketValue.value * (rep.totalBills as real) == rep.totalSales as real)
    && (rep.avgBasketSize.Some? <==> rep.totalBills > 0)
    && (rep.avgBasketSize.Some? ==>
          rep.avgBasketSize.value * (rep.totalBills as real) == rep.totalQty as real)
  }

  /** Every grouped table adds up to the headline totals, and `item_sales`
      has `unique_items` rows ranked by sales. */
  ghost predicate SalesTablesAgree(rep: Report)
  {
    && Sum(rep.posSales, TotalOf) == rep.totalSales
    && Sum(rep.dailySales, TotalOf) == rep.totalSales
    && |rep.itemSales| == rep.uniqueItems
    && NonIncreasing(rep.itemSales, SalesOf)
    && Sum(rep.itemSales, QtyOf) == rep.totalQty
    && Sum(rep.itemSales, SalesOf) == rep.totalSales
  }

  /** The movers are a prefix and a suffix of `item_sales` of min(10, n)
      rows each. */
  ghost predicate MoversAgree(rep: Report)
  {
    && |rep.fastMovers| == |rep.slowMovers|
       == (if |rep.itemSales| < MoverCount then |rep.itemSales| else MoverCount)
    && |rep.fastMovers| <= |rep.itemSales|
    && rep.fastMovers == rep.itemSales[..|rep.fastMovers|]
    && rep.slowMovers == rep.itemSales[|rep.itemSales| - |rep.slowMovers|..]
  }

  /** The script's computations, top to bottom. */
  function Analyse(rows: seq<LineItem>): Report
  {
    var items := ItemSales(rows);
    Report(
      TotalSales(rows),
      TotalBills(rows),
      TotalQty(rows),
      UniqueItems(rows),
      BillSummary(rows),
      AvgBasketValue(rows),
      AvgBasketSize(rows),
      PosSales(rows),
      items,
      DailySales(rows),
      FastMovers(items),
      SlowMovers(items))
  }

  lemma AnalyseBills(rows: seq<LineItem>)
    ensures BillFiguresAgree(Analyse(rows), |rows|)
  {
    BillFigures(rows);
    TotalBillsBounds(rows);
  }

  lemma AnalyseAverages(rows: seq<LineItem>)
    ensures AveragesAgree(Analyse(rows))
  {
    AvgBasketValueSpec(rows);
    AvgBasketSizeSpec(rows);
    TotalBillsBounds(rows);
  }

  lemma AnalyseTables(rows: seq<LineItem>)
    ensures SalesTablesAgree(Analyse(rows))
  {
    PosSalesSpec(rows);
    DailySalesSpec(rows);
    ItemSalesSpec(rows);
  }

  lemma AnalyseMovers(rows: seq<LineItem>)
    ensures MoversAgree(Analyse(rows))
  {
  }

  /** The figures the dashboard shows side by side agree with one another. */
  lemma AnalyseAgrees(rows: seq<LineItem>)
    ensures var rep := Analyse(rows);
      && BillFiguresAgree(rep, |rows|)
      && AveragesAgree(rep)
      && SalesTablesAgree(rep)
      && MoversAgree(rep)
  {
    AnalyseBills(rows);
    AnalyseAverages(rows);
    AnalyseTables(rows);
    AnalyseMovers(rows);
  }

  /** The script as a whole: the header check stops it with the first missing
      required column, otherwise every table is computed. */
  function Dashboard(header: seq<string>, rows: seq<LineItem>): (r: Result<Report, Schema.SchemaError>)
    ensures r.Success? <==>
      forall i :: 0 <= i < |Schema.Required| ==> Schema.Required[i] in Schema.NormaliseAll(header)
    ensures r.Failure? ==> exists k :: (0 <= k < |Schema.Required|
      && r.error == Schema.MissingColumn(Schema.Required[k])
      && Schema.Required[k] !in Schema.NormaliseAll(header)
      && (forall j :: 0 <= j < k ==> Schema.Required[j] in Schema.NormaliseAll(header)))
    ensures r.Success? ==> r.value == Analyse(rows)
  {
    match Schema.LoadColumns(header)
    case Failure(e) => Failure(e)
    case Success(_) => Success(Analyse(rows))
  }
}
