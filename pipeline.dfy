/** main's transformation steps, composed: after loading, the stock pivot,
    the two movement pivots and the two assembled reports. */
module Pipeline {
  import opened Wrappers
  import opened Seqs
  import opened LabelOrder
  import opened WideMatrix
  import opened Records
  import opened Partitioner
  import opened MatrixBuilder
  import opened ReportAssembler

  /** The two reports (CE07, all other sites) the run produces from the
      loaded movement and stock rows. */
  function Reports(movements: seq<Movement>, zstok: seq<StockRow>): (r: Result<(Matrix, Matrix), Error>) {
    var df := Bucket(movements);
    CreateFinalDatasets(
      Averaged(MonthPivot(AtSite(df, CE07))),
      Averaged(MonthPivot(AwayFromSite(df, CE07))),
      ProcessZstok(zstok))
  }

  /** main between load_data and export_to_json, in its call order. */
  method Run(zmb51: MovementFrame, zstok: seq<StockRow>) returns (result: Result<(Matrix, Matrix), Error>)
    modifies zmb51
    ensures zmb51.records == old(zmb51.records)
    ensures |zmb51.anoMes| == |zmb51.records| && zmb51.Rows() == Bucket(zmb51.records)
    ensures result == Reports(zmb51.records, zstok)
  {
    var zstokPivot := ProcessZstok(zstok);
    var zmb51PivotSemCe07, zmb51PivotCe07 := ProcessZmb51(zmb51);
    result := CreateFinalDatasets(zmb51PivotCe07, zmb51PivotSemCe07, zstokPivot);
  }

  /** The run fails, with a KeyError on CE07, exactly when no stock row is at CE07. */
  lemma ReportsFail(movements: seq<Movement>, zstok: seq<StockRow>)
    ensures Reports(movements, zstok).Err? <==> forall i :: 0 <= i < |zstok| ==> zstok[i].centro != CE07
    ensures Reports(movements, zstok).Err? ==> Reports(movements, zstok).error == KeyError(CE07_COLUMN)
  {
    StockPivotShape(zstok);
    var p := ProcessZstok(zstok);
    if CE07_COLUMN in LabelsOf(p.cols) {
      var j :| 0 <= j < |p.cols| && LabelsOf(p.cols)[j] == CE07_COLUMN;
      var i :| 0 <= i < |zstok| && p.cols[j].key == Name(zstok[i].centro);
      assert zstok[i].centro == CE07;
    }
  }

  /** A material occurs in a masked selection of the bucketed rows exactly
      when some movement row of that material passes the mask. */
  lemma MaskedMaterials(movements: seq<Movement>, p: Bucketed -> bool, x: Material)
    ensures var part := Filter(Bucket(movements), p);
      (exists k :: 0 <= k < |part| && part[k].movement.material == x) <==>
      (exists i :: 0 <= i < |movements| && movements[i].material == x && p(Bucket(movements)[i]))
  {
    var df := Bucket(movements);
    var part := Filter(df, p);
    if exists k :: 0 <= k < |part| && part[k].movement.material == x {
      var k :| 0 <= k < |part| && part[k].movement.material == x;
      MaskedRowIsInput(movements, p, k);
    }
    if exists i :: 0 <= i < |movements| && movements[i].material == x && p(df[i]) {
      var i :| 0 <= i < |movements| && movements[i].material == x && p(df[i]);
      InputRowIsMasked(movements, p, i);
    }
  }

  /** A row of the masked selection is a bucketed input row that passes the mask. */
  lemma MaskedRowIsInput(movements: seq<Movement>, p: Bucketed -> bool, k: nat)
    requires k < |Filter(Bucket(movements), p)|
    ensures var row := Filter(Bucket(movements), p)[k];
      exists i :: 0 <= i < |movements| && movements[i].material == row.movement.material && p(Bucket(movements)[i])
  {
    var df := Bucket(movements);
    var row := Filter(df, p)[k];
    assert row in df && p(row);
    var i :| 0 <= i < |df| && df[i] == row;
    assert movements[i] == row.movement;
  }

  /** A bucketed input row that passes the mask is a row of the masked selection. */
  lemma InputRowIsMasked(movements: seq<Movement>, p: Bucketed -> bool, i: nat)
    requires i < |movements| && p(Bucket(movements)[i])
    ensures exists k ::
      0 <= k < |Filter(Bucket(movements), p)| && Filter(Bucket(movements), p)[k].movement.material == movements[i].material
  {
    var df := Bucket(movements);
    var part := Filter(df, p);
    assert df[i] in part;
    var k :| 0 <= k < |part| && part[k] == df[i];
    assert df[i].movement == movements[i];
    assert part[k].movement.material == movements[i].material;
  }

  /** Appending the averages keeps the month pivot's rows. */
  lemma AveragedRows(part: seq<Bucketed>, x: Material)
    ensures x in Averaged(MonthPivot(part)).rows <==> exists k :: 0 <= k < |part| && part[k].movement.material == x
  {
    MonthPivotRows(part);
    MonthPivotColumns(part);
    AveragedShape(MonthPivot(part));
  }

  lemma Ce07Rows(movements: seq<Movement>, x: Material)
    ensures x in Averaged(MonthPivot(AtSite(Bucket(movements), CE07))).rows <==>
      exists i :: 0 <= i < |movements| && movements[i].material == x && movements[i].centro == CE07
  {
    AveragedRows(AtSite(Bucket(movements), CE07), x);
    MaskedMaterials(movements, SiteIs(CE07), x);
  }

  lemma SemCe07Rows(movements: seq<Movement>, x: Material)
    ensures x in Averaged(MonthPivot(AwayFromSite(Bucket(movements), CE07))).rows <==>
      exists i :: 0 <= i < |movements| && movements[i].material == x && movements[i].centro != CE07
  {
    AveragedRows(AwayFromSite(Bucket(movements), CE07), x);
    MaskedMaterials(movements, SiteIsNot(CE07), x);
  }

  /** The posting months of the movements whose site is (`at`) or is not
      (`!at`) `site`, as column labels. */
  ghost function PostingMonths(movements: seq<Movement>, site: string, at: bool): (ks: set<Label>) {
    set i | 0 <= i < |movements| && (movements[i].centro == site) == at :: Period(MonthOf(movements[i].dataDeLancamento))
  }

  /** `cols` are exactly the posting months of the selected movements, each
      a month column, running strictly forward in time. */
  ghost predicate MovedMonths(cols: seq<Column>, movements: seq<Movement>, site: string, at: bool) {
    && MonthColumns(cols)
    && (forall j :: 0 <= j < |cols| ==> cols[j].key in PostingMonths(movements, site, at))
    && (forall k :: k in PostingMonths(movements, site, at) ==> k in LabelsOf(cols))
    && (forall i, j :: 0 <= i < j < |cols| ==> MonthLt(cols[i].key.month, cols[j].key.month))
  }

  /** The month pivot of a site mask over the bucketed rows has exactly the
      posting months of the movements the mask selects, in order. */
  lemma MaskedMonths(movements: seq<Movement>, p: Bucketed -> bool, site: string, at: bool)
    requires forall i :: 0 <= i < |movements| ==> (p(Bucket(movements)[i]) <==> (movements[i].centro == site) == at)
    ensures MovedMonths(MonthPivot(Filter(Bucket(movements), p)).cols, movements, site, at)
  {
    var part := Filter(Bucket(movements), p);
    MonthPivotColumns(part);
    MaskedMonthsOf(movements, p, site, at, part, MonthPivot(part).cols);
  }

  lemma MaskedMonthsOf(movements: seq<Movement>, p: Bucketed -> bool, site: string, at: bool,
                       part: seq<Bucketed>, cols: seq<Column>)
    requires forall i :: 0 <= i < |movements| ==> (p(Bucket(movements)[i]) <==> (movements[i].centro == site) == at)
    requires part == Filter(Bucket(movements), p)
    requires forall k :: 0 <= k < |part| ==> Period(part[k].anoMes) in LabelsOf(cols)
    requires forall j :: 0 <= j < |cols| ==> exists k :: 0 <= k < |part| && cols[j].key == Period(part[k].anoMes)
    requires MonthColumns(cols)
    requires forall i, j :: 0 <= i < j < |cols| ==> MonthLt(cols[i].key.month, cols[j].key.month)
    ensures MovedMonths(cols, movements, site, at)
  {
    var df := Bucket(movements);
    var months := PostingMonths(movements, site, at);
    forall j | 0 <= j < |cols| ensures cols[j].key in months {
      var c := cols[j];
      var k :| 0 <= k < |part| && c.key == Period(part[k].anoMes);
      assert part[k] in df && p(part[k]);
      var i :| 0 <= i < |df| && df[i] == part[k];
      assert df[i].movement == movements[i];
    }
    forall key | key in months ensures key in LabelsOf(cols) {
      var i :| 0 <= i < |movements| && (movements[i].centro == site) == at && key == Period(MonthOf(movements[i].dataDeLancamento));
      assert p(df[i]);
      assert df[i] in part;
      var k :| 0 <= k < |part| && part[k] == df[i];
      assert Period(part[k].anoMes) in LabelsOf(cols);
    }
  }

  /** The CE07 pivot's columns are the posting months of the CE07 movements. */
  lemma Ce07Months(movements: seq<Movement>)
    ensures MovedMonths(MonthPivot(AtSite(Bucket(movements), CE07)).cols, movements, CE07, true)
  {
    MaskedMonths(movements, SiteIs(CE07), CE07, true);
  }

  /** The other pivot's columns are the posting months of the movements
      at every other site. */
  lemma SemCe07Months(movements: seq<Movement>)
    ensures MovedMonths(MonthPivot(AwayFromSite(Bucket(movements), CE07)).cols, movements, CE07, false)
  {
    MaskedMonths(movements, SiteIsNot(CE07), CE07, false);
  }

  /** A later posting never lands in an earlier month column. */
  lemma LaterPostingLaterColumn(cols: seq<Column>, a: Date, b: Date, j: nat, k: nat)
    requires MonthColumns(cols)
    requires forall i, j :: 0 <= i < j < |cols| ==> MonthLt(cols[i].key.month, cols[j].key.month)
    requires j < |cols| && k < |cols|
    requires cols[j].key == Period(MonthOf(a)) && cols[k].key == Period(MonthOf(b))
    requires DateLe(a, b)
    ensures j <= k
  {
    MonthOfMonotone(a, b);
  }

  /** Each report's rows are the union of its inputs' rows, stated on the
      loaded rows: the CE07 report has the materials moved at CE07 and the
      stocked ones; the other report the materials moved elsewhere, the
      stocked ones and the five reduction materials. */
  lemma ReportRows(movements: seq<Movement>, zstok: seq<StockRow>, x: Material)
    requires Reports(movements, zstok).Ok?
    ensures x in Reports(movements, zstok).value.0.rows <==>
      || (exists i :: 0 <= i < |movements| && movements[i].material == x && movements[i].centro == CE07)
      || (exists i :: 0 <= i < |zstok| && zstok[i].material == x)
    ensures x in Reports(movements, zstok).value.1.rows <==>
      || (exists i :: 0 <= i < |movements| && movements[i].material == x && movements[i].centro != CE07)
      || (exists i :: 0 <= i < |zstok| && zstok[i].material == x)
      || x in REDUCTION
  {
    var df := Bucket(movements);
    var ce07 := Averaged(MonthPivot(AtSite(df, CE07)));
    var sem := Averaged(MonthPivot(AwayFromSite(df, CE07)));
    var stock := ProcessZstok(zstok);
    Ce07Report(ce07, sem, stock);
    OtherReport(ce07, sem, stock);
    Ce07Rows(movements, x);
    SemCe07Rows(movements, x);
    StockPivotShape(zstok);
  }

  /** The sites of the stock rows whose site is (`at`) or is not (`!at`)
      `site`, as column labels. */
  ghost function StockSites(zstok: seq<StockRow>, site: string, at: bool): (ks: set<Label>) {
    set i | 0 <= i < |zstok| && (zstok[i].centro == site) == at :: Name(zstok[i].centro)
  }

  /** `cols` are exactly the stocked sites other than CE07, each once, in ascending order. */
  ghost predicate OtherSiteColumns(cols: seq<Column>, zstok: seq<StockRow>) {
    && (forall j :: 0 <= j < |cols| ==> cols[j].key in StockSites(zstok, CE07, false))
    && (forall k :: k in StockSites(zstok, CE07, false) ==> k in LabelsOf(cols))
    && DistinctLabels(cols)
    && Ordered(cols)
  }

  /** Dropping CE07 from the stock pivot leaves one column per other stocked site. */
  lemma OtherStockColumns(zstok: seq<StockRow>)
    requires CE07_COLUMN in LabelsOf(ProcessZstok(zstok).cols)
    ensures OtherSiteColumns(DropColumn(ProcessZstok(zstok), CE07_COLUMN).value.cols, zstok)
  {
    var p := ProcessZstok(zstok);
    StockPivotShape(zstok);
    DropKeepsDistinct(p, CE07_COLUMN);
    DropKeepsOrdered(p, CE07_COLUMN);
    OtherStockColumnsOf(zstok, p, DropColumn(p, CE07_COLUMN).value.cols);
  }

  lemma OtherStockColumnsOf(zstok: seq<StockRow>, p: Matrix, dropped: seq<Column>)
    requires forall i :: 0 <= i < |zstok| ==> Name(zstok[i].centro) in LabelsOf(p.cols)
    requires forall j :: 0 <= j < |p.cols| ==> exists i :: 0 <= i < |zstok| && p.cols[j].key == Name(zstok[i].centro)
    requires forall j :: 0 <= j < |dropped| ==> dropped[j].key != CE07_COLUMN && dropped[j] in p.cols
    requires forall j :: 0 <= j < |p.cols| && p.cols[j].key != CE07_COLUMN ==> p.cols[j] in dropped
    requires DistinctLabels(dropped) && Ordered(dropped)
    ensures OtherSiteColumns(dropped, zstok)
  {
    var sites := StockSites(zstok, CE07, false);
    forall j | 0 <= j < |dropped| ensures dropped[j].key in sites {
      var c := dropped[j];
      var k :| 0 <= k < |p.cols| && p.cols[k] == c;
      var i :| 0 <= i < |zstok| && p.cols[k].key == Name(zstok[i].centro);
      assert zstok[i].centro != CE07;
    }
    forall key | key in sites ensures key in LabelsOf(dropped) {
      var i :| 0 <= i < |zstok| && zstok[i].centro != CE07 && key == Name(zstok[i].centro);
      var k :| 0 <= k < |p.cols| && LabelsOf(p.cols)[k] == key;
      assert p.cols[k] in dropped;
      var j :| 0 <= j < |dropped| && dropped[j] == p.cols[k];
      assert LabelsOf(dropped)[j] == key;
    }
  }

  /** Month columns, then `media_3m` and `media_6m`, then further columns:
      where each further column sits, and no label is `possivel_reducao`
      unless a further column carries it. */
  lemma ColumnsAfterMonths(months: seq<Column>, c3: Column, c6: Column, tail: seq<Column>, all: seq<Column>)
    requires all == months + [c3, c6] + tail
    requires MonthColumns(months) && c3.key == MEDIA_3M && c6.key == MEDIA_6M
    ensures |all| == |months| + 2 + |tail| && all[..|months|] == months
    ensures all[|months|].key == MEDIA_3M && all[|months| + 1].key == MEDIA_6M
    ensures all[|months| + 2..] == tail
    ensures (forall j :: 0 <= j < |tail| ==> tail[j].key != POSSIVEL_REDUCAO) ==> POSSIVEL_REDUCAO !in LabelsOf(all)
  {
    assert all[..|months|] == months;
    assert all[|months| + 2..] == tail;
    if forall j :: 0 <= j < |tail| ==> tail[j].key != POSSIVEL_REDUCAO {
      forall j | 0 <= j < |all| ensures LabelsOf(all)[j] != POSSIVEL_REDUCAO {
        if j < |months| {
          assert all[j] == months[j];
        } else if j >= |months| + 2 {
          assert all[j] == tail[j - |months| - 2];
        }
      }
    }
  }

  /** The CE07 report's columns, stated on the loaded rows: the posting
      months of the CE07 movements in ascending order, then `media_3m`,
      `media_6m` and the CE07 stock column; it has no `possivel_reducao`. */
  lemma Ce07ReportColumns(movements: seq<Movement>, zstok: seq<StockRow>)
    requires Reports(movements, zstok).Ok?
    ensures var n := |MonthPivot(AtSite(Bucket(movements), CE07)).cols|;
      var report := Reports(movements, zstok).value.0;
      && |report.cols| == n + 3
      && MovedMonths(report.cols[..n], movements, CE07, true)
      && report.cols[n].key == MEDIA_3M && report.cols[n + 1].key == MEDIA_6M && report.cols[n + 2].key == CE07_COLUMN
      && POSSIVEL_REDUCAO !in LabelsOf(report.cols)
  {
    var piv := MonthPivot(AtSite(Bucket(movements), CE07));
    var ce07 := Averaged(piv);
    var sem := Averaged(MonthPivot(AwayFromSite(Bucket(movements), CE07)));
    var stock := ProcessZstok(zstok);
    assert Reports(movements, zstok) == CreateFinalDatasets(ce07, sem, stock);
    MonthPivotColumns(AtSite(Bucket(movements), CE07));
    AveragedColumns(piv);
    Ce07Months(movements);
    StockPivotShape(zstok);
    Ce07Report(ce07, sem, stock);
    var sel := SelectColumn(stock, CE07_COLUMN).value.cols;
    Ce07ColumnsOf(movements, piv.cols, Media3mColumn(piv), Media6mColumn(piv), sel, CreateFinalDatasets(ce07, sem, stock).value.0.cols);
  }

  lemma Ce07ColumnsOf(movements: seq<Movement>, months: seq<Column>, c3: Column, c6: Column, sel: seq<Column>, all: seq<Column>)
    requires MovedMonths(months, movements, CE07, true)
    requires c3.key == MEDIA_3M && c6.key == MEDIA_6M
    requires |sel| == 1 && sel[0].key == CE07_COLUMN
    requires all == months + [c3, c6] + sel
    ensures |all| == |months| + 3
    ensures MovedMonths(all[..|months|], movements, CE07, true)
    ensures all[|months|].key == MEDIA_3M && all[|months| + 1].key == MEDIA_6M && all[|months| + 2].key == CE07_COLUMN
    ensures POSSIVEL_REDUCAO !in LabelsOf(all)
  {
    ColumnsAfterMonths(months, c3, c6, sel, all);
    assert all[|months| + 2] == sel[0];
  }

  /** The other report's columns, stated on the loaded rows: the posting
      months of the movements elsewhere in ascending order, then `media_3m`
      and `media_6m`, then one column per stocked site other than CE07, and
      last `possivel_reducao`. */
  lemma OtherReportColumns(movements: seq<Movement>, zstok: seq<StockRow>)
    requires Reports(movements, zstok).Ok?
    ensures var n := |MonthPivot(AwayFromSite(Bucket(movements), CE07)).cols|;
      var report := Reports(movements, zstok).value.1;
      && |report.cols| >= n + 3
      && MovedMonths(report.cols[..n], movements, CE07, false)
      && report.cols[n].key == MEDIA_3M && report.cols[n + 1].key == MEDIA_6M
      && OtherSiteColumns(report.cols[n + 2..|report.cols| - 1], zstok)
      && report.cols[|report.cols| - 1] == Column(POSSIVEL_REDUCAO, REDUCTION)
  {
    var piv := MonthPivot(AwayFromSite(Bucket(movements), CE07));
    var ce07 := Averaged(MonthPivot(AtSite(Bucket(movements), CE07)));
    var sem := Averaged(piv);
    var stock := ProcessZstok(zstok);
    assert Reports(movements, zstok) == CreateFinalDatasets(ce07, sem, stock);
    MonthPivotColumns(AwayFromSite(Bucket(movements), CE07));
    AveragedColumns(piv);
    SemCe07Months(movements);
    OtherStockColumns(zstok);
    OtherReport(ce07, sem, stock);
    var dropped := DropColumn(stock, CE07_COLUMN).value.cols;
    OtherColumnsOf(movements, zstok, piv.cols, Media3mColumn(piv), Media6mColumn(piv), dropped,
      CreateFinalDatasets(ce07, sem, stock).value.1.cols);
  }

  lemma OtherColumnsOf(movements: seq<Movement>, zstok: seq<StockRow>, months: seq<Column>, c3: Column, c6: Column,
                       dropped: seq<Column>, all: seq<Column>)
    requires MovedMonths(months, movements, CE07, false)
    requires c3.key == MEDIA_3M && c6.key == MEDIA_6M
    requires OtherSiteColumns(dropped, zstok)
    requires all == months + [c3, c6] + dropped + [Column(POSSIVEL_REDUCAO, REDUCTION)]
    ensures |all| >= |months| + 3
    ensures MovedMonths(all[..|months|], movements, CE07, false)
    ensures all[|months|].key == MEDIA_3M && all[|months| + 1].key == MEDIA_6M
    ensures OtherSiteColumns(all[|months| + 2..|all| - 1], zstok)
    ensures all[|all| - 1] == Column(POSSIVEL_REDUCAO, REDUCTION)
  {
    var tail := dropped + [Column(POSSIVEL_REDUCAO, REDUCTION)];
    assert all == months + [c3, c6] + tail;
    ColumnsAfterMonths(months, c3, c6, tail, all);
    assert all[|months| + 2..|all| - 1] == dropped;
  }

  // ---------------------------------------------------------------------
  // A worked run: A8K3430 moved at CE07, 2 + 3 units in January 2024 and
  // 15 in February; 100 in stock at CE07; nothing for T671600.

  const JAN_2024: MonthKey := MonthKey(2024, 1)
  const FEB_2024: MonthKey := MonthKey(2024, 2)

  /** The movement records of the worked run, as zmb51 would return them. */
  ghost predicate ScenarioMovements(ms: seq<Movement>) {
    && |ms| == 3
    && ms[0] == Movement("A8K3430", "CE07", 2.0, "V1", Date(2024, 1, 8))
    && ms[1] == Movement("A8K3430", "CE07", 3.0, "V1", Date(2024, 1, 22))
    && ms[2] == Movement("A8K3430", "CE07", 15.0, "V2", Date(2024, 2, 5))
  }

  /** The stock rows of the worked run, as zstok would return them. */
  ghost predicate ScenarioStockRows(zs: seq<StockRow>) {
    |zs| == 1 && zs[0] == StockRow("A8K3430", 100.0, "CE07")
  }

  lemma ScenarioPartition(ms: seq<Movement>, df: seq<Bucketed>)
    requires ScenarioMovements(ms) && df == Bucket(ms)
    ensures AtSite(df, CE07) == df
    ensures AwayFromSite(df, CE07) == []
  {
    assert forall i :: 0 <= i < |df| ==> df[i].movement.centro == CE07;
    FilterAll(df, SiteIs(CE07));
    FilterNone(df, SiteIsNot(CE07));
  }

  lemma ScenarioQuantities(ms: seq<Movement>, df: seq<Bucketed>)
    requires ScenarioMovements(ms) && df == Bucket(ms)
    ensures MonthQuantities(df, "A8K3430", JAN_2024) == [2.0, 3.0]
    ensures MonthQuantities(df, "A8K3430", FEB_2024) == [15.0]
    ensures Total([2.0, 3.0]) == 5.0 && Total([15.0]) == 15.0
  {
    var m := ms;
    assert df == [Bucketed(m[0], JAN_2024), Bucketed(m[1], JAN_2024), Bucketed(m[2], FEB_2024)];
    assert df[1..] == [df[1], df[2]];
    assert df[1..][1..] == [df[2]];
    assert df[1..][1..][1..] == [];
    var a, j, f := "A8K3430", JAN_2024, FEB_2024;
    assert MonthQuantities(df[1..][1..], a, j) == [];
    assert MonthQuantities(df[1..], a, j) == [3.0];
    assert MonthQuantities(df, a, j) == [2.0] + [3.0];
    assert MonthQuantities(df[1..][1..], a, f) == [15.0];
    assert MonthQuantities(df[1..], a, f) == [15.0];
    assert [2.0, 3.0][1..] == [3.0];
  }

  /** Distinct, ordered month columns drawn from January and February 2024,
      both present, are exactly those two in that order. */
  lemma TwoMonthColumns(cols: seq<Column>)
    requires MonthColumns(cols)
    requires forall i, j :: 0 <= i < j < |cols| ==> MonthLt(cols[i].key.month, cols[j].key.month)
    requires forall j :: 0 <= j < |cols| ==> cols[j].key == Period(JAN_2024) || cols[j].key == Period(FEB_2024)
    requires Period(JAN_2024) in LabelsOf(cols) && Period(FEB_2024) in LabelsOf(cols)
    ensures |cols| == 2 && cols[0].key == Period(JAN_2024) && cols[1].key == Period(FEB_2024)
  {
    var j :| 0 <= j < |cols| && LabelsOf(cols)[j] == Period(JAN_2024);
    var k :| 0 <= k < |cols| && LabelsOf(cols)[k] == Period(FEB_2024);
    assert cols[j].key == Period(JAN_2024) && cols[k].key == Period(FEB_2024);
    assert forall i :: 0 <= i < |cols| ==> MonthLe(JAN_2024, cols[i].key.month) && MonthLe(cols[i].key.month, FEB_2024);
    assert forall i :: 0 < i < |cols| ==> MonthLt(cols[0].key.month, cols[i].key.month);
    assert forall i :: 0 <= i < |cols| - 1 ==> MonthLt(cols[i].key.month, cols[|cols| - 1].key.month);
    assert j == 0;
    assert k == |cols| - 1;
    assert forall i :: 0 < i < |cols| ==> cols[i].key == Period(FEB_2024);
    assert forall i :: 0 <= i < |cols| - 1 ==> cols[i].key == Period(JAN_2024);
    assert cols[1].key == Period(FEB_2024);
  }

  /** The bucketed frame of the worked run: one material, two months. */
  lemma ScenarioFrame(ms: seq<Movement>, df: seq<Bucketed>)
    requires ScenarioMovements(ms) && df == Bucket(ms)
    ensures |df| == 3
    ensures forall i :: 0 <= i < |df| ==> df[i].movement.material == "A8K3430"
    ensures df[0].anoMes == JAN_2024 && df[1].anoMes == JAN_2024 && df[2].anoMes == FEB_2024
  {
  }

  lemma ScenarioMonthRows(df: seq<Bucketed>)
    requires |df| == 3
    requires forall i :: 0 <= i < |df| ==> df[i].movement.material == "A8K3430"
    ensures MonthPivot(df).rows == {"A8K3430"}
  {
    MonthPivotRows(df);
    assert df[0].movement.material == "A8K3430";
  }

  lemma ScenarioMonthColumns(df: seq<Bucketed>)
    requires |df| == 3
    requires df[0].anoMes == JAN_2024 && df[1].anoMes == JAN_2024 && df[2].anoMes == FEB_2024
    ensures var p := MonthPivot(df);
      && MonthColumns(p.cols)
      && |p.cols| == 2
      && p.cols[0].key == Period(JAN_2024) && p.cols[1].key == Period(FEB_2024)
  {
    MonthPivotColumns(df);
    ScenarioColumnsOf(df, MonthPivot(df).cols);
  }

  /** Chronological month columns drawn from the worked run's rows, every
      row's month among them, are January and February 2024. */
  lemma ScenarioColumnsOf(df: seq<Bucketed>, cols: seq<Column>)
    requires |df| == 3
    requires df[0].anoMes == JAN_2024 && df[1].anoMes == JAN_2024 && df[2].anoMes == FEB_2024
    requires forall i :: 0 <= i < |df| ==> Period(df[i].anoMes) in LabelsOf(cols)
    requires forall j :: 0 <= j < |cols| ==> exists i :: 0 <= i < |df| && cols[j].key == Period(df[i].anoMes)
    requires MonthColumns(cols)
    requires forall i, j :: 0 <= i < j < |cols| ==> MonthLt(cols[i].key.month, cols[j].key.month)
    ensures |cols| == 2 && cols[0].key == Period(JAN_2024) && cols[1].key == Period(FEB_2024)
  {
    ScenarioMonthsPresent(df, cols);
    ScenarioMonthKeys(df, cols);
    TwoMonthColumns(cols);
  }

  /** Both months of the worked run label a column. */
  lemma ScenarioMonthsPresent(df: seq<Bucketed>, cols: seq<Column>)
    requires |df| == 3
    requires df[0].anoMes == JAN_2024 && df[2].anoMes == FEB_2024
    requires forall i :: 0 <= i < |df| ==> Period(df[i].anoMes) in LabelsOf(cols)
    ensures Period(JAN_2024) in LabelsOf(cols) && Period(FEB_2024) in LabelsOf(cols)
  {
    assert Period(df[0].anoMes) in LabelsOf(cols);
    assert Period(df[2].anoMes) in LabelsOf(cols);
  }

  /** Columns each keyed by some row's month are keyed January or February 2024. */
  lemma ScenarioMonthKeys(df: seq<Bucketed>, cols: seq<Column>)
    requires |df| == 3
    requires df[0].anoMes == JAN_2024 && df[1].anoMes == JAN_2024 && df[2].anoMes == FEB_2024
    requires forall j :: 0 <= j < |cols| ==> exists i :: 0 <= i < |df| && cols[j].key == Period(df[i].anoMes)
    ensures forall j :: 0 <= j < |cols| ==> cols[j].key == Period(JAN_2024) || cols[j].key == Period(FEB_2024)
  {
    forall j | 0 <= j < |cols|
      ensures cols[j].key == Period(JAN_2024) || cols[j].key == Period(FEB_2024)
    {
      var i :| 0 <= i < |df| && cols[j].key == Period(df[i].anoMes);
      assert i == 0 || i == 1 || i == 2;
    }
  }

  lemma ScenarioMonthPivot(ms: seq<Movement>, df: seq<Bucketed>)
    requires ScenarioMovements(ms) && df == Bucket(ms)
    ensures var p := MonthPivot(df);
      && p.rows == {"A8K3430"}
      && MonthColumns(p.cols)
      && |p.cols| == 2
      && p.cols[0].key == Period(JAN_2024) && p.cols[1].key == Period(FEB_2024)
      && Cell(p, "A8K3430", 0) == Some(5.0)
      && Cell(p, "A8K3430", 1) == Some(15.0)
  {
    ScenarioFrame(ms, df);
    ScenarioMonthRows(df);
    ScenarioMonthColumns(df);
    ScenarioQuantities(ms, df);
    MonthCell(df, "A8K3430", JAN_2024, 0);
    MonthCell(df, "A8K3430", FEB_2024, 1);
  }

  /** The worked run's stock pivot: one row, one column CE07, holding 100. */
  lemma ScenarioStock(zstok: seq<StockRow>)
    requires ScenarioStockRows(zstok)
    ensures ScenarioStockPivot(ProcessZstok(zstok))
  {
    var p := ProcessZstok(zstok);
    ScenarioStockShape(zstok);
    SelectUnique(p, CE07_COLUMN, 0);
    assert StockValues(zstok, "A8K3430", "CE07") == [100.0] by {
      assert zstok[1..] == [];
    }
    assert MeanOf([100.0]) == Some(100.0) by {
      assert Total([100.0]) == 100.0;
    }
    StockCell(zstok, "A8K3430", "CE07", 0);
  }

  lemma ScenarioStockShape(zstok: seq<StockRow>)
    requires ScenarioStockRows(zstok)
    ensures var p := ProcessZstok(zstok);
      && p.rows == {"A8K3430"}
      && |p.cols| == 1 && p.cols[0].key == CE07_COLUMN
      && DistinctLabels(p.cols)
  {
    StockPivotShape(zstok);
    ScenarioStockShapeOf(zstok, ProcessZstok(zstok));
  }

  /** A stock pivot shaped by the worked run's one stock row. */
  lemma ScenarioStockShapeOf(zstok: seq<StockRow>, p: Matrix)
    requires ScenarioStockRows(zstok)
    requires forall x :: x in p.rows <==> exists i :: 0 <= i < |zstok| && zstok[i].material == x
    requires forall i :: 0 <= i < |zstok| ==> Name(zstok[i].centro) in LabelsOf(p.cols)
    requires forall j :: 0 <= j < |p.cols| ==> exists i :: 0 <= i < |zstok| && p.cols[j].key == Name(zstok[i].centro)
    requires DistinctLabels(p.cols)
    ensures p.rows == {"A8K3430"}
    ensures |p.cols| == 1 && p.cols[0].key == CE07_COLUMN
  {
    assert zstok[0].material == "A8K3430";
    assert forall x :: x in p.rows <==> x == "A8K3430";
    assert forall j :: 0 <= j < |p.cols| ==> HasKey(CE07_COLUMN)(p.cols[j]);
    assert LabelsOf(p.cols)[0] == CE07_COLUMN;
    FilterAll(p.cols, HasKey(CE07_COLUMN));
    SelectUnique(p, CE07_COLUMN, 0);
  }

  /** The worked run's averaged CE07 pivot: January and February, then
      media_3m and media_6m. */
  lemma ScenarioAveragedLabels(p: Matrix)
    requires MonthColumns(p.cols) && |p.cols| == 2
    requires p.cols[0].key == Period(JAN_2024) && p.cols[1].key == Period(FEB_2024)
    ensures var a := Averaged(p);
      && a.rows == p.rows
      && |a.cols| == 4
      && a.cols[0].key == Period(JAN_2024) && a.cols[1].key == Period(FEB_2024)
      && a.cols[2].key == MEDIA_3M && a.cols[3].key == MEDIA_6M
      && a.cols[0] == p.cols[0] && a.cols[1] == p.cols[1]
  {
    AveragedColumns(p);
    TwoPlusTwo(p.cols, Media3mColumn(p), Media6mColumn(p));
  }

  /** Two columns followed by two more. */
  lemma TwoPlusTwo(cols: seq<Column>, c3: Column, c6: Column)
    requires |cols| == 2
    ensures var all := cols + [c3, c6];
      |all| == 4 && all[0] == cols[0] && all[1] == cols[1] && all[2] == c3 && all[3] == c6
  {
  }

  /** The worked run's averaged CE07 pivot: A8K3430 with 2024-01 = 5,
      2024-02 = 15, media_3m = 10 and media_6m = 10. */
  ghost predicate ScenarioCe07Pivot(a: Matrix) {
    && a.rows == {"A8K3430"}
    && |a.cols| == 4
    && a.cols[0].key == Period(JAN_2024) && a.cols[1].key == Period(FEB_2024)
    && a.cols[2].key == MEDIA_3M && a.cols[3].key == MEDIA_6M
    && Cell(a, "A8K3430", 0) == Some(5.0)
    && Cell(a, "A8K3430", 1) == Some(15.0)
    && Cell(a, "A8K3430", 2) == Some(10.0)
    && Cell(a, "A8K3430", 3) == Some(10.0)
  }

  /** The worked run's stock pivot: A8K3430 with CE07 = 100, nothing else. */
  ghost predicate ScenarioStockPivot(p: Matrix) {
    && p.rows == {"A8K3430"}
    && |p.cols| == 1 && p.cols[0].key == CE07_COLUMN
    && SelectColumn(p, CE07_COLUMN).Ok? && SelectColumn(p, CE07_COLUMN).value.cols == p.cols
    && Cell(p, "A8K3430", 0) == Some(100.0)
  }

  /** The worked run's averages: media_3m = media_6m = 10. */
  lemma ScenarioAveraged(p: Matrix)
    requires p.rows == {"A8K3430"} && MonthColumns(p.cols) && |p.cols| == 2
    requires p.cols[0].key == Period(JAN_2024) && p.cols[1].key == Period(FEB_2024)
    requires Cell(p, "A8K3430", 0) == Some(5.0) && Cell(p, "A8K3430", 1) == Some(15.0)
    ensures ScenarioCe07Pivot(Averaged(p))
  {
    ScenarioAveragedLabels(p);
    TwoMonthsExample(p, "A8K3430");
  }

  /** Bucketing, pivoting and averaging the worked run's CE07 movements. */
  lemma ScenarioCe07(ms: seq<Movement>, df: seq<Bucketed>)
    requires ScenarioMovements(ms) && df == Bucket(ms)
    ensures ScenarioCe07Pivot(Averaged(MonthPivot(df)))
  {
    ScenarioMonthPivot(ms, df);
    ScenarioAveraged(MonthPivot(df));
  }

  /** The worked run's reports: the CE07 report has the single row A8K3430
      with the columns 2024-01 = 5, 2024-02 = 15, media_3m = 10,
      media_6m = 10 and CE07 = 100; T671600, absent from the input, is a row
      of the other report, entering through the reduction table with the
      estimate 2. */
  ghost predicate ScenarioOutcome(r: Result<(Matrix, Matrix), Error>) {
    && r.Ok?
    && r.value.0.rows == {"A8K3430"}
    && |r.value.0.cols| == 5
    && r.value.0.cols[0].key == Period(JAN_2024) && r.value.0.cols[1].key == Period(FEB_2024)
    && r.value.0.cols[2].key == MEDIA_3M && r.value.0.cols[3].key == MEDIA_6M
    && r.value.0.cols[4].key == CE07_COLUMN
    && Cell(r.value.0, "A8K3430", 0) == Some(5.0)
    && Cell(r.value.0, "A8K3430", 1) == Some(15.0)
    && Cell(r.value.0, "A8K3430", 2) == Some(10.0)
    && Cell(r.value.0, "A8K3430", 3) == Some(10.0)
    && Cell(r.value.0, "A8K3430", 4) == Some(100.0)
    && "T671600" in r.value.1.rows
    && |r.value.1.cols| > 0
    && Cell(r.value.1, "T671600", |r.value.1.cols| - 1) == Some(2.0)
  }

  /** The worked run's CE07 report: the averaged pivot's four columns, then
      the stock pivot's CE07 column. */
  lemma ScenarioAssembly(ce07: Matrix, sem: Matrix, stock: Matrix)
    requires ScenarioCe07Pivot(ce07) && ScenarioStockPivot(stock)
    ensures var r := CreateFinalDatasets(ce07, sem, stock);
      && r.Ok?
      && r.value.0.rows == {"A8K3430"}
      && |r.value.0.cols| == 5
      && r.value.0.cols[0].key == Period(JAN_2024) && r.value.0.cols[1].key == Period(FEB_2024)
      && r.value.0.cols[2].key == MEDIA_3M && r.value.0.cols[3].key == MEDIA_6M
      && r.value.0.cols[4].key == CE07_COLUMN
      && Cell(r.value.0, "A8K3430", 0) == Some(5.0)
      && Cell(r.value.0, "A8K3430", 1) == Some(15.0)
      && Cell(r.value.0, "A8K3430", 2) == Some(10.0)
      && Cell(r.value.0, "A8K3430", 3) == Some(10.0)
      && Cell(r.value.0, "A8K3430", 4) == Some(100.0)
  {
    assert LabelsOf(stock.cols)[0] == CE07_COLUMN;
    Ce07Report(ce07, sem, stock);
    var report := CreateFinalDatasets(ce07, sem, stock).value.0;
    assert report.cols == ce07.cols + stock.cols;
    assert report.cols[4] == stock.cols[0];
  }

  /** T671600 enters the other report through the reduction table with the
      estimate 2. */
  lemma ScenarioReduction(ce07: Matrix, sem: Matrix, stock: Matrix)
    requires CE07_COLUMN in LabelsOf(stock.cols)
    ensures var r := CreateFinalDatasets(ce07, sem, stock);
      && r.Ok?
      && "T671600" in r.value.1.rows
      && |r.value.1.cols| > 0
      && Cell(r.value.1, "T671600", |r.value.1.cols| - 1) == Some(2.0)
  {
    ReductionColumn(ce07, sem, stock, "T671600");
  }

  /** Assembling the worked run's pivots. */
  lemma ScenarioAssembled(ce07: Matrix, sem: Matrix, stock: Matrix)
    requires ScenarioCe07Pivot(ce07) && ScenarioStockPivot(stock)
    ensures ScenarioOutcome(CreateFinalDatasets(ce07, sem, stock))
  {
    ScenarioAssembly(ce07, sem, stock);
    assert LabelsOf(stock.cols)[0] == CE07_COLUMN;
    ScenarioReduction(ce07, sem, stock);
  }

  /** Every movement of the worked run is at CE07, so the CE07 pivot is
      built from the whole bucketed frame. */
  lemma ScenarioReports(ms: seq<Movement>, zstok: seq<StockRow>, df: seq<Bucketed>)
    requires ScenarioMovements(ms) && df == Bucket(ms)
    ensures Reports(ms, zstok) ==
      CreateFinalDatasets(Averaged(MonthPivot(df)), Averaged(MonthPivot(AwayFromSite(df, CE07))), ProcessZstok(zstok))
  {
    ScenarioPartition(ms, df);
  }

  /** The worked run end to end, from the loaded rows to the two reports. */
  lemma Scenario(movements: seq<Movement>, zstok: seq<StockRow>)
    requires ScenarioMovements(movements) && ScenarioStockRows(zstok)
    ensures ScenarioOutcome(Reports(movements, zstok))
  {
    var df := Bucket(movements);
    ScenarioReports(movements, zstok, df);
    ScenarioCe07(movements, df);
    ScenarioStock(zstok);
    ScenarioAssembled(Averaged(MonthPivot(df)), Averaged(MonthPivot(AwayFromSite(df, CE07))), ProcessZstok(zstok));
  }
}
