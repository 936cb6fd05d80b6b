/** The matrix builder: the stock pivot (process_zstok), the month pivot
    with its two trailing averages (create_pivot) and the movement step that
    buckets rows into months and splits them by site (process_zmb51). */
module MatrixBuilder {
  import opened Wrappers
  import opened Seqs
  import opened LabelOrder
  import opened WideMatrix
  import opened Records
  import opened Partitioner
  import opened Pivot

  /** The labels of the two derived columns. */
  const MEDIA_3M: Label := Name("media_3m")
  const MEDIA_6M: Label := Name("media_6m")

  // ---------------------------------------------------------------------
  // Stock pivot: material x site, mean of estoque_total

  function StockEntries(zstok: seq<StockRow>): (es: seq<Entry>) {
    seq(|zstok|, i requires 0 <= i < |zstok| => Entry(zstok[i].material, Name(zstok[i].centro), zstok[i].estoqueTotal))
  }

  /** The `estoque_total` of the stock rows for material `x` at site `c`, in input order. */
  function StockValues(zstok: seq<StockRow>, x: Material, c: string): (vs: seq<real>) {
    if zstok == [] then []
    else
      var head := if zstok[0].material == x && zstok[0].centro == c then [zstok[0].estoqueTotal] else [];
      head + StockValues(zstok[1..], x, c)
  }

  lemma {:induction false} StockMatches(zstok: seq<StockRow>, x: Material, c: string)
    ensures Matches(StockEntries(zstok), x, Name(c)) == StockValues(zstok, x, c)
  {
    if zstok != [] {
      StockMatches(zstok[1..], x, c);
      assert StockEntries(zstok)[1..] == StockEntries(zstok[1..]);
    }
  }

  /** `zstok.pivot_table(index="material", columns="centro", values="estoque_total")`. */
  function ProcessZstok(zstok: seq<StockRow>): (p: Matrix) {
    PivotTable(StockEntries(zstok), Mean)
  }

  /** The stock matrix has one row per material and one column per site,
      each site once, in ascending order. */
  lemma StockPivotShape(zstok: seq<StockRow>)
    ensures var p := ProcessZstok(zstok);
      && WellFormed(p)
      && (forall x :: x in p.rows <==> exists i :: 0 <= i < |zstok| && zstok[i].material == x)
      && (forall i :: 0 <= i < |zstok| ==> Name(zstok[i].centro) in LabelsOf(p.cols))
      && (forall j :: 0 <= j < |p.cols| ==> exists i :: 0 <= i < |zstok| && p.cols[j].key == Name(zstok[i].centro))
      && DistinctLabels(p.cols)
      && Ordered(p.cols)
  {
    var es := StockEntries(zstok);
    PivotRows(es, Mean);
    PivotColumns(es, Mean);
    var p := ProcessZstok(zstok);
    forall x | x in p.rows ensures exists i :: 0 <= i < |zstok| && zstok[i].material == x {
      var i :| 0 <= i < |es| && es[i].row == x;
      assert zstok[i].material == x;
    }
    forall x | exists i :: 0 <= i < |zstok| && zstok[i].material == x ensures x in p.rows {
      var i :| 0 <= i < |zstok| && zstok[i].material == x;
      assert es[i].row == x;
    }
    forall j | 0 <= j < |p.cols| ensures exists i :: 0 <= i < |zstok| && p.cols[j].key == Name(zstok[i].centro) {
      var i :| 0 <= i < |es| && es[i].col == p.cols[j].key;
      assert es[i].col == Name(zstok[i].centro);
    }
    forall i | 0 <= i < |zstok| ensures Name(zstok[i].centro) in LabelsOf(p.cols) {
      assert es[i].col == Name(zstok[i].centro);
    }
  }

  /** A stock cell is the mean of `estoque_total` over the duplicate rows of
      its (material, site) pair, and NaN when the pair does not occur. */
  lemma StockCell(zstok: seq<StockRow>, x: Material, c: string, j: nat)
    requires j < |ProcessZstok(zstok).cols| && ProcessZstok(zstok).cols[j].key == Name(c)
    ensures Cell(ProcessZstok(zstok), x, j) == MeanOf(StockValues(zstok, x, c))
  {
    var es := StockEntries(zstok);
    PivotCell(es, Mean, x, j);
    StockMatches(zstok, x, c);
    MatchesEmpty(es, x, Name(c));
  }

  // ---------------------------------------------------------------------
  // Month pivot: material x month, sum of qtd_um_registro

  function MovementEntries(df: seq<Bucketed>): (es: seq<Entry>) {
    seq(|df|, i requires 0 <= i < |df| =>
      Entry(df[i].movement.material, Period(df[i].anoMes), df[i].movement.qtdUmRegistro))
  }

  /** The `qtd_um_registro` of the rows of material `x` in month `k`, in input order. */
  function MonthQuantities(df: seq<Bucketed>, x: Material, k: MonthKey): (qs: seq<real>) {
    if df == [] then []
    else
      var head := if df[0].movement.material == x && df[0].anoMes == k then [df[0].movement.qtdUmRegistro] else [];
      head + MonthQuantities(df[1..], x, k)
  }

  lemma {:induction false} MovementMatches(df: seq<Bucketed>, x: Material, k: MonthKey)
    ensures Matches(MovementEntries(df), x, Period(k)) == MonthQuantities(df, x, k)
  {
    if df != [] {
      MovementMatches(df[1..], x, k);
      assert MovementEntries(df)[1..] == MovementEntries(df[1..]);
    }
  }

  /** `df.pivot_table(index="material", columns="ano_mes",
      values="qtd_um_registro", aggfunc="sum").sort_index(axis=1)`. */
  function MonthPivot(df: seq<Bucketed>): (p: Matrix) {
    SortIndex(PivotTable(MovementEntries(df), Sum))
  }

  /** Every column label is a month. */
  predicate MonthColumns(cols: seq<Column>) {
    forall j :: 0 <= j < |cols| ==> cols[j].key.Period?
  }

  lemma {:induction false} Chronological(cols: seq<Column>, i: nat, j: nat)
    requires Ordered(cols) && DistinctLabels(cols) && MonthColumns(cols)
    requires i < j < |cols|
    ensures MonthLt(cols[i].key.month, cols[j].key.month)
    decreases j - i
  {
    StrictlyAscending(cols, j);
    if i < j - 1 {
      Chronological(cols, i, j - 1);
    }
  }

  /** The month matrix has one row per material of the input. */
  lemma MonthPivotRows(df: seq<Bucketed>)
    ensures var p := MonthPivot(df);
      && WellFormed(p)
      && (forall x :: x in p.rows <==> exists i :: 0 <= i < |df| && df[i].movement.material == x)
  {
    var es := MovementEntries(df);
    PivotRows(es, Sum);
    var p := MonthPivot(df);
    forall x | x in p.rows ensures exists i :: 0 <= i < |df| && df[i].movement.material == x {
      var i :| 0 <= i < |es| && es[i].row == x;
      assert df[i].movement.material == x;
    }
    forall x | exists i :: 0 <= i < |df| && df[i].movement.material == x ensures x in p.rows {
      var i :| 0 <= i < |df| && df[i].movement.material == x;
      assert es[i].row == x;
    }
  }

  /** The month matrix has one column per month that occurs, in strictly
      ascending chronological order. */
  lemma MonthPivotColumns(df: seq<Bucketed>)
    ensures var p := MonthPivot(df);
      && (forall i :: 0 <= i < |df| ==> Period(df[i].anoMes) in LabelsOf(p.cols))
      && (forall j :: 0 <= j < |p.cols| ==> exists i :: 0 <= i < |df| && p.cols[j].key == Period(df[i].anoMes))
      && MonthColumns(p.cols)
      && (forall i, j :: 0 <= i < j < |p.cols| ==> MonthLt(p.cols[i].key.month, p.cols[j].key.month))
  {
    MonthPivotLabels(df);
    PivotColumns(MovementEntries(df), Sum);
    AllChronological(MonthPivot(df).cols);
  }

  /** Distinct, ordered month columns run strictly forward in time. */
  lemma AllChronological(cols: seq<Column>)
    requires Ordered(cols) && DistinctLabels(cols) && MonthColumns(cols)
    ensures forall i, j :: 0 <= i < j < |cols| ==> MonthLt(cols[i].key.month, cols[j].key.month)
  {
    forall i, j | 0 <= i < j < |cols| ensures MonthLt(cols[i].key.month, cols[j].key.month) {
      Chronological(cols, i, j);
    }
  }

  lemma MonthPivotLabels(df: seq<Bucketed>)
    ensures var p := MonthPivot(df);
      && p == PivotTable(MovementEntries(df), Sum)
      && (forall i :: 0 <= i < |df| ==> Period(df[i].anoMes) in LabelsOf(p.cols))
      && (forall j :: 0 <= j < |p.cols| ==> exists i :: 0 <= i < |df| && p.cols[j].key == Period(df[i].anoMes))
      && MonthColumns(p.cols)
  {
    var es := MovementEntries(df);
    var q := PivotTable(es, Sum);
    PivotColumns(es, Sum);
    SortIndexNoOp(q);
    forall j | 0 <= j < |q.cols| ensures exists i :: 0 <= i < |df| && q.cols[j].key == Period(df[i].anoMes) {
      var i :| 0 <= i < |es| && es[i].col == q.cols[j].key;
      assert es[i].col == Period(df[i].anoMes);
    }
    forall i | 0 <= i < |df| ensures Period(df[i].anoMes) in LabelsOf(q.cols) {
      assert es[i].col == Period(df[i].anoMes);
    }
  }

  /** A month cell is the sum of `qtd_um_registro` over the rows of its
      material and month, and NaN (never 0) when there are none. */
  lemma MonthCell(df: seq<Bucketed>, x: Material, k: MonthKey, j: nat)
    requires j < |MonthPivot(df).cols| && MonthPivot(df).cols[j].key == Period(k)
    ensures Cell(MonthPivot(df), x, j) == if MonthQuantities(df, x, k) == [] then None else Some(Total(MonthQuantities(df, x, k)))
  {
    var es := MovementEntries(df);
    SortIndexNoOp(PivotTable(es, Sum));
    PivotCell(es, Sum, x, j);
    MovementMatches(df, x, k);
    MatchesEmpty(es, x, Period(k));
  }

  // ---------------------------------------------------------------------
  // Trailing averages

  /** `pivot["media_3m"] = pivot.iloc[:, -3:].mean(axis=1)` and then
      `pivot["media_6m"] = pivot.iloc[:, -6:].mean(axis=1)`, the second read
      from the table the first has already extended. */
  function Averaged(p: Matrix): (a: Matrix) {
    var p3 := Assigned(p, MEDIA_3M, RowMeans(p.rows, Last(p.cols, 3)));
    Assigned(p3, MEDIA_6M, RowMeans(p3.rows, Last(p3.cols, 6)))
  }

  /** The `media_3m` column appended to `p`. */
  function Media3mColumn(p: Matrix): (c: Column) {
    Aligned(MEDIA_3M, RowMeans(p.rows, Last(p.cols, 3)), p.rows)
  }

  /** The `media_6m` column appended after `media_3m`. */
  function Media6mColumn(p: Matrix): (c: Column) {
    Aligned(MEDIA_6M, RowMeans(p.rows, Last(p.cols + [Media3mColumn(p)], 6)), p.rows)
  }

  /** Over month columns both averages are new labels, so each assignment
      appends: the month columns stay as they were, followed by exactly
      `media_3m` and `media_6m`. */
  lemma AveragedColumns(p: Matrix)
    requires MonthColumns(p.cols)
    ensures Averaged(p) == Matrix(p.rows, p.cols + [Media3mColumn(p), Media6mColumn(p)])
  {
    AppendMedia3m(p);
    AppendMedia6m(p);
  }

  /** The first assignment appends `media_3m`. */
  lemma AppendMedia3m(p: Matrix)
    requires MonthColumns(p.cols)
    ensures Assigned(p, MEDIA_3M, RowMeans(p.rows, Last(p.cols, 3))) == Matrix(p.rows, p.cols + [Media3mColumn(p)])
  {
    NamesAreNew(p.cols, [], MEDIA_3M);
    assert p.cols + [] == p.cols;
    AssignedAppends(p, MEDIA_3M, RowMeans(p.rows, Last(p.cols, 3)), "");
  }

  /** The second assignment, on the table `media_3m` extended, appends `media_6m`. */
  lemma AppendMedia6m(p: Matrix)
    requires MonthColumns(p.cols)
    ensures var p3 := Matrix(p.rows, p.cols + [Media3mColumn(p)]);
      Assigned(p3, MEDIA_6M, RowMeans(p3.rows, Last(p3.cols, 6))) == Matrix(p.rows, p.cols + [Media3mColumn(p), Media6mColumn(p)])
  {
    var c3 := Media3mColumn(p);
    var c6 := Media6mColumn(p);
    var p3 := Matrix(p.rows, p.cols + [c3]);
    var m6 := RowMeans(p3.rows, Last(p3.cols, 6));
    Media6mAligned(p);
    NamesAreNew(p.cols, [c3], MEDIA_6M);
    AssignedAppends(p3, MEDIA_6M, m6, "");
    AppendTwo(p.cols, c3, c6);
  }

  /** The series the second assignment aligns is `media_6m`'s column. */
  lemma Media6mAligned(p: Matrix)
    ensures var p3 := Matrix(p.rows, p.cols + [Media3mColumn(p)]);
      Aligned(MEDIA_6M, RowMeans(p3.rows, Last(p3.cols, 6)), p3.rows) == Media6mColumn(p)
  {
  }

  /** Appending two columns one at a time. */
  lemma AppendTwo(s: seq<Column>, a: Column, b: Column)
    ensures s + [a] + [b] == s + [a, b]
  {
  }

  /** A name label is not among month columns followed by columns of other labels. */
  lemma NamesAreNew(cols: seq<Column>, extra: seq<Column>, key: Label)
    requires MonthColumns(cols) && key.Name?
    requires forall j :: 0 <= j < |extra| ==> extra[j].key != key
    ensures key !in LabelsOf(cols + extra)
  {
    var ls := LabelsOf(cols + extra);
    forall j | 0 <= j < |ls| ensures ls[j] != key {
      if j < |cols| {
        assert (cols + extra)[j] == cols[j];
      } else {
        assert (cols + extra)[j] == extra[j - |cols|];
      }
    }
  }

  /** The shape of the averaged table in terms of its labels. */
  lemma AveragedShape(p: Matrix)
    requires MonthColumns(p.cols)
    ensures var a := Averaged(p);
      && a.rows == p.rows
      && (WellFormed(p) ==> WellFormed(a))
      && |a.cols| == |p.cols| + 2
      && a.cols[..|p.cols|] == p.cols
      && a.cols[|p.cols|].key == MEDIA_3M
      && a.cols[|p.cols| + 1].key == MEDIA_6M
  {
    AveragedColumns(p);
    var a := Averaged(p);
    assert a.cols[..|p.cols|] == p.cols;
  }

  /** `media_3m` is the mean of the values present among the last (up to)
      three month columns, NaN when none is present. */
  lemma Media3m(p: Matrix, x: Material)
    requires MonthColumns(p.cols)
    ensures |Averaged(p).cols| == |p.cols| + 2
    ensures Cell(Averaged(p), x, |p.cols|) == if x in p.rows then MeanOf(PresentValues(Last(p.cols, 3), x)) else None
  {
    AveragedColumns(p);
    assert Averaged(p).cols[|p.cols|] == Media3mColumn(p);
  }

  /** The window `iloc[:, -6:]` read after `media_3m` was appended is the last
      (up to) five month columns followed by `media_3m`. */
  lemma SixWindow(cols: seq<Column>, c: Column)
    ensures Last(cols + [c], 6) == Last(cols, 5) + [c]
  {
  }

  /** `media_6m` is the mean of the values present among the last (up to)
      five month columns and the row's `media_3m`: the code's window of six
      includes the column it has just appended. */
  lemma Media6m(p: Matrix, x: Material)
    requires MonthColumns(p.cols)
    ensures |Averaged(p).cols| == |p.cols| + 2
    ensures var media3 := Cell(Averaged(p), x, |p.cols|);
      Cell(Averaged(p), x, |p.cols| + 1) ==
        if x in p.rows then MeanOf(PresentValues(Last(p.cols, 5), x) + (if media3.Some? then [media3.value] else []))
        else None
  {
    AveragedColumns(p);
    Media6mCell(p, x);
  }

  /** The `media_6m` cell of the appended columns, read through the window
      of six that ends with `media_3m`. */
  lemma Media6mCell(p: Matrix, x: Material)
    ensures var n := |p.cols|;
      var c3 := Media3mColumn(p);
      var c6 := Media6mColumn(p);
      (x in c6.values <==> x in p.rows && PresentValues(Last(p.cols, 5), x) + Present(c3, x) != [])
      && (x in p.rows ==> MeanOf(PresentValues(Last(p.cols, 5), x) + Present(c3, x)) == if x in c6.values then Some(c6.values[x]) else None)
      && var a := Matrix(p.rows, p.cols + [c3, c6]);
      && Cell(a, x, n) == (if x in c3.values then Some(c3.values[x]) else None)
      && Cell(a, x, n + 1) == (if x in c6.values then Some(c6.values[x]) else None)
      && Present(c3, x) == (if Cell(a, x, n).Some? then [Cell(a, x, n).value] else [])
  {
    var c3 := Media3mColumn(p);
    var w := Last(p.cols + [c3], 6);
    SixWindow(p.cols, c3);
    PresentValuesAppend(Last(p.cols, 5), [c3], x);
    assert PresentValues([c3], x) == Present(c3, x) + PresentValues([], x);
    assert PresentValues(w, x) == PresentValues(Last(p.cols, 5), x) + Present(c3, x);
  }

  /** The values a row holds in columns that all have one for it. */
  lemma {:induction false} AllPresent(cols: seq<Column>, x: Material, vs: seq<real>)
    requires |vs| == |cols|
    requires forall j :: 0 <= j < |cols| ==> x in cols[j].values && cols[j].values[x] == vs[j]
    ensures PresentValues(cols, x) == vs
  {
    if cols != [] {
      AllPresent(cols[1..], x, vs[1..]);
      assert vs == [vs[0]] + vs[1..];
    }
  }

  /** The means the examples below need, worked out on plain sequences. */
  lemma ExampleMeans()
    ensures MeanOf([40.0, 50.0, 60.0]) == Some(50.0)
    ensures MeanOf([20.0, 30.0, 40.0, 50.0, 60.0, 50.0]) == Some(125.0 / 3.0)
    ensures MeanOf([10.0, 20.0, 30.0, 40.0, 50.0, 60.0]) == Some(35.0)
    ensures MeanOf([5.0, 15.0]) == Some(10.0)
    ensures MeanOf([5.0, 15.0, 10.0]) == Some(10.0)
    ensures MeanOf([10.0, 30.0]) == Some(20.0)
    ensures MeanOf([10.0, 30.0, 20.0]) == Some(20.0)
  {
    assert Total([60.0]) == 60.0;
    assert Total([50.0, 60.0]) == 110.0 by { assert [50.0, 60.0][1..] == [60.0]; }
    assert Total([40.0, 50.0, 60.0]) == 150.0 by { assert [40.0, 50.0, 60.0][1..] == [50.0, 60.0]; }
    assert Total([50.0]) == 50.0;
    assert Total([60.0, 50.0]) == 110.0 by { assert [60.0, 50.0][1..] == [50.0]; }
    assert Total([50.0, 60.0, 50.0]) == 160.0 by { assert [50.0, 60.0, 50.0][1..] == [60.0, 50.0]; }
    assert Total([40.0, 50.0, 60.0, 50.0]) == 200.0 by { assert [40.0, 50.0, 60.0, 50.0][1..] == [50.0, 60.0, 50.0]; }
    assert Total([30.0, 40.0, 50.0, 60.0, 50.0]) == 230.0 by { assert [30.0, 40.0, 50.0, 60.0, 50.0][1..] == [40.0, 50.0, 60.0, 50.0]; }
    assert Total([20.0, 30.0, 40.0, 50.0, 60.0, 50.0]) == 250.0 by { assert [20.0, 30.0, 40.0, 50.0, 60.0, 50.0][1..] == [30.0, 40.0, 50.0, 60.0, 50.0]; }
    assert Total([30.0, 40.0, 50.0, 60.0]) == 180.0 by { assert [30.0, 40.0, 50.0, 60.0][1..] == [40.0, 50.0, 60.0]; }
    assert Total([20.0, 30.0, 40.0, 50.0, 60.0]) == 200.0 by { assert [20.0, 30.0, 40.0, 50.0, 60.0][1..] == [30.0, 40.0, 50.0, 60.0]; }
    assert Total([10.0, 20.0, 30.0, 40.0, 50.0, 60.0]) == 210.0 by { assert [10.0, 20.0, 30.0, 40.0, 50.0, 60.0][1..] == [20.0, 30.0, 40.0, 50.0, 60.0]; }
    assert Total([15.0]) == 15.0;
    assert Total([5.0, 15.0]) == 20.0 by { assert [5.0, 15.0][1..] == [15.0]; }
    assert Total([10.0]) == 10.0;
    assert Total([15.0, 10.0]) == 25.0 by { assert [15.0, 10.0][1..] == [10.0]; }
    assert Total([5.0, 15.0, 10.0]) == 30.0 by { assert [5.0, 15.0, 10.0][1..] == [15.0, 10.0]; }
    assert Total([30.0]) == 30.0;
    assert Total([10.0, 30.0]) == 40.0 by { assert [10.0, 30.0][1..] == [30.0]; }
    assert Total([20.0]) == 20.0;
    assert Total([30.0, 20.0]) == 50.0 by { assert [30.0, 20.0][1..] == [20.0]; }
    assert Total([10.0, 30.0, 20.0]) == 60.0 by { assert [10.0, 30.0, 20.0][1..] == [30.0, 20.0]; }
  }

  /** Six months 10, 20, ..., 60: `media_3m` is 50 and `media_6m` is
      (20 + 30 + 40 + 50 + 60 + 50) / 6, not the six-month mean 35. */
  lemma SixMonthsExample(p: Matrix, x: Material)
    requires MonthColumns(p.cols) && |p.cols| == 6 && x in p.rows
    requires forall j :: 0 <= j < 6 ==> Cell(p, x, j) == Some(10.0 * ((j + 1) as real))
    ensures |Averaged(p).cols| == 8
    ensures Cell(Averaged(p), x, 6) == Some(50.0)
    ensures Cell(Averaged(p), x, 7) == Some(125.0 / 3.0)
    ensures MeanOf(PresentValues(p.cols, x)) == Some(35.0)
  {
    var c := p.cols;
    var vs := [10.0, 20.0, 30.0, 40.0, 50.0, 60.0];
    forall j | 0 <= j < 6 ensures x in c[j].values && c[j].values[x] == vs[j] {
      assert Cell(p, x, j) == Some(10.0 * ((j + 1) as real));
    }
    AllPresent(c, x, vs);
    AllPresent(c[3..], x, vs[3..]);
    AllPresent(c[1..], x, vs[1..]);
    assert Last(c, 3) == c[3..] && Last(c, 5) == c[1..];
    assert vs[3..] == [40.0, 50.0, 60.0];
    assert vs[1..] + [50.0] == [20.0, 30.0, 40.0, 50.0, 60.0, 50.0];
    ExampleMeans();
    Media3m(p, x);
    Media6m(p, x);
  }

  /** Two months 5 and 15: both averages are 10. */
  lemma TwoMonthsExample(p: Matrix, x: Material)
    requires MonthColumns(p.cols) && |p.cols| == 2 && x in p.rows
    requires Cell(p, x, 0) == Some(5.0) && Cell(p, x, 1) == Some(15.0)
    ensures |Averaged(p).cols| == 4
    ensures Cell(Averaged(p), x, 2) == Some(10.0)
    ensures Cell(Averaged(p), x, 3) == Some(10.0)
  {
    var c := p.cols;
    AllPresent(c, x, [5.0, 15.0]);
    assert Last(c, 3) == c && Last(c, 5) == c;
    assert [5.0, 15.0] + [10.0] == [5.0, 15.0, 10.0];
    ExampleMeans();
    Media3m(p, x);
    Media6m(p, x);
  }

  /** Months 10, NaN, 30: the missing month is left out of the mean rather
      than counted as 0, so `media_3m` is 20, and `media_6m` is 20 too. */
  lemma MissingMonthExample(p: Matrix, x: Material)
    requires MonthColumns(p.cols) && |p.cols| == 3 && x in p.rows
    requires Cell(p, x, 0) == Some(10.0) && Cell(p, x, 1) == None && Cell(p, x, 2) == Some(30.0)
    ensures |Averaged(p).cols| == 5
    ensures Cell(Averaged(p), x, 3) == Some(20.0)
    ensures Cell(Averaged(p), x, 4) == Some(20.0)
  {
    var c := p.cols;
    AllPresent(c[2..], x, [30.0]);
    assert PresentValues(c[1..], x) == [30.0];
    assert PresentValues(c, x) == [10.0, 30.0];
    assert Last(c, 3) == c && Last(c, 5) == c;
    assert [10.0, 30.0] + [20.0] == [10.0, 30.0, 20.0];
    ExampleMeans();
    Media3m(p, x);
    Media6m(p, x);
  }

  // ---------------------------------------------------------------------
  // The table create_pivot updates in place

  /** The pivot table under construction: its rows and its ordered columns. */
  class PivotFrame {
    var rows: set<Material>
    var cols: seq<Column>

    ghost predicate Valid()
      reads this
    {
      WellFormed(Matrix(rows, cols))
    }

    function Value(): (m: Matrix)
      reads this
    {
      Matrix(rows, cols)
    }

    constructor (m: Matrix)
      requires WellFormed(m)
      ensures Valid() && Value() == m
    {
      rows, cols := m.rows, m.cols;
    }

    /** `iloc[:, -k:]`. */
    function Tail(k: nat): (t: seq<Column>)
      reads this
      requires k > 0
    {
      Last(cols, k)
    }

    /** `frame = frame.sort_index(axis=1)`. */
    method SortByLabel()
      requires Valid()
      modifies this
      ensures Valid()
      ensures Value() == SortIndex(old(Value()))
    {
      cols := SortIndex(Matrix(rows, cols)).cols;
    }

    /** `frame[key] = values`. */
    method Assign(key: Label, values: map<Material, real>)
      requires Valid()
      modifies this
      ensures Valid()
      ensures Value() == Assigned(old(Value()), key, values)
    {
      var old0 := Matrix(rows, cols);
      assert WellFormed(old0);
      var m := Assigned(old0, key, values);
      assert WellFormed(m) && m.rows == rows;
      cols := m.cols;
      assert Matrix(rows, cols) == m;
    }
  }

  /** create_pivot: the month pivot, then `media_3m` appended, then
      `media_6m` computed from the table that already holds `media_3m`. */
  method CreatePivot(df: seq<Bucketed>) returns (pivot: Matrix)
    ensures pivot == Averaged(MonthPivot(df))
  {
    var es := MovementEntries(df);
    PivotRows(es, Sum);
    var frame := new PivotFrame(PivotTable(es, Sum));
    frame.SortByLabel();
    frame.Assign(MEDIA_3M, RowMeans(frame.rows, frame.Tail(3)));
    frame.Assign(MEDIA_6M, RowMeans(frame.rows, frame.Tail(6)));
    pivot := frame.Value();
  }

  // ---------------------------------------------------------------------
  // process_zmb51

  /** The movement frame; `anoMes` is its `ano_mes` column, empty until assigned. */
  class MovementFrame {
    var records: seq<Movement>
    var anoMes: seq<MonthKey>

    constructor (records: seq<Movement>)
      ensures this.records == records && anoMes == []
    {
      this.records, anoMes := records, [];
    }

    /** `zmb51["ano_mes"] = zmb51["data_de_lancamento"].dt.to_period("M")`. */
    method AssignMonthColumn()
      modifies this
      ensures records == old(records)
      ensures |anoMes| == |records|
      ensures forall i :: 0 <= i < |records| ==> anoMes[i] == MonthOf(records[i].dataDeLancamento)
    {
      var rs := records;
      anoMes := seq(|rs|, i requires 0 <= i < |rs| => MonthOf(rs[i].dataDeLancamento));
    }

    /** The rows of the frame with their `ano_mes`. */
    function Rows(): (df: seq<Bucketed>)
      reads this
      requires |anoMes| == |records|
    {
      var rs, ks := records, anoMes;
      seq(|rs|, i requires 0 <= i < |rs| => Bucketed(rs[i], ks[i]))
    }
  }

  /** The movement rows, each with the month of its posting date. */
  function Bucket(records: seq<Movement>): (df: seq<Bucketed>)
    ensures |df| == |records|
    ensures forall i :: 0 <= i < |records| ==>
      df[i].movement == records[i] && df[i].anoMes == MonthOf(records[i].dataDeLancamento)
  {
    seq(|records|, i requires 0 <= i < |records| => Bucketed(records[i], MonthOf(records[i].dataDeLancamento)))
  }

  /** process_zmb51: assigns the month column to the caller's frame, then
      builds one pivot from the rows away from CE07 and one from the rows at CE07. */
  method ProcessZmb51(zmb51: MovementFrame) returns (pivotSemCe07: Matrix, pivotCe07: Matrix)
    modifies zmb51
    ensures zmb51.records == old(zmb51.records)
    ensures |zmb51.anoMes| == |zmb51.records| && zmb51.Rows() == Bucket(zmb51.records)
    ensures pivotSemCe07 == Averaged(MonthPivot(AwayFromSite(Bucket(zmb51.records), CE07)))
    ensures pivotCe07 == Averaged(MonthPivot(AtSite(Bucket(zmb51.records), CE07)))
  {
    zmb51.AssignMonthColumn();
    var df := zmb51.Rows();
    assert df == Bucket(zmb51.records);
    var semCe07 := AwayFromSite(df, CE07);
    var ce07 := AtSite(df, CE07);
    pivotSemCe07 := CreatePivot(semCe07);
    pivotCe07 := CreatePivot(ce07);
  }
}
