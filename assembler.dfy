/** The report assembler (create_final_datasets): the stock columns split on
    CE07, the fixed reduction table, and the row-aligned concatenations. */
module ReportAssembler {
  import opened Wrappers
  import opened Seqs
  import opened LabelOrder
  import opened WideMatrix

  /** The stock column of the distinguished site. */
  const CE07_COLUMN: Label := Name("CE07")

  /** The label of the reduction column. */
  const POSSIVEL_REDUCAO: Label := Name("possivel_reducao")

  /** The manual reduction estimates, by material. */
  const REDUCTION: map<Material, real> :=
    map["A8K3430" := 11.0, "A8K3230" := 4.0, "AAV8230" := 50.0, "AAV8330" := 30.0, "T671600" := 2.0]

  /** pandas raises a KeyError when a selected or dropped label is absent. */
  datatype Error = KeyError(missing: Label)

  function HasKey(key: Label): (p: Column -> bool) {
    (c: Column) => c.key == key
  }

  function HasOtherKey(key: Label): (p: Column -> bool) {
    (c: Column) => c.key != key
  }

  /** `frame[[key]]`: all rows, only the columns labelled `key`. */
  function SelectColumn(m: Matrix, key: Label): (r: Result<Matrix, Error>)
    ensures r.Err? <==> key !in LabelsOf(m.cols)
    ensures r.Err? ==> r.error == KeyError(key)
    ensures r.Ok? ==> r.value.rows == m.rows && |r.value.cols| > 0
    ensures r.Ok? ==> forall j :: 0 <= j < |r.value.cols| ==> r.value.cols[j].key == key && r.value.cols[j] in m.cols
    ensures r.Ok? ==> forall j :: 0 <= j < |m.cols| && m.cols[j].key == key ==> m.cols[j] in r.value.cols
  {
    if key in LabelsOf(m.cols) then
      var j :| 0 <= j < |m.cols| && m.cols[j].key == key;
      assert m.cols[j] in Filter(m.cols, HasKey(key));
      Ok(Matrix(m.rows, Filter(m.cols, HasKey(key))))
    else Err(KeyError(key))
  }

  /** `frame.drop(columns=[key])`: all rows, every column not labelled `key`. */
  function DropColumn(m: Matrix, key: Label): (r: Result<Matrix, Error>)
    ensures r.Err? <==> key !in LabelsOf(m.cols)
    ensures r.Err? ==> r.error == KeyError(key)
    ensures r.Ok? ==> r.value.rows == m.rows
    ensures r.Ok? ==> forall j :: 0 <= j < |r.value.cols| ==> r.value.cols[j].key != key && r.value.cols[j] in m.cols
    ensures r.Ok? ==> forall j :: 0 <= j < |m.cols| && m.cols[j].key != key ==> m.cols[j] in r.value.cols
  {
    if key in LabelsOf(m.cols) then Ok(Matrix(m.rows, Filter(m.cols, HasOtherKey(key))))
    else Err(KeyError(key))
  }

  /** Selecting and dropping the same label splits the columns: together they
      are all the columns, each once, each part in the original order. */
  lemma SelectDropSplit(m: Matrix, key: Label)
    requires key in LabelsOf(m.cols)
    ensures Interleaves(m.cols, SelectColumn(m, key).value.cols, DropColumn(m, key).value.cols)
    ensures multiset(SelectColumn(m, key).value.cols) + multiset(DropColumn(m, key).value.cols) == multiset(m.cols)
  {
    FilterInterleaves(m.cols, HasKey(key), HasOtherKey(key));
    FilterSplitMultiset(m.cols, HasKey(key), HasOtherKey(key));
  }

  /** Dropping a label keeps the remaining labels distinct. */
  lemma DropKeepsDistinct(m: Matrix, key: Label)
    requires key in LabelsOf(m.cols) && DistinctLabels(m.cols)
    ensures DistinctLabels(DropColumn(m, key).value.cols)
  {
    FilterKeepsDistinct(m.cols, HasOtherKey(key));
  }

  /** Dropping a label from ascending columns leaves them ascending. */
  lemma DropKeepsOrdered(m: Matrix, key: Label)
    requires key in LabelsOf(m.cols) && Ordered(m.cols)
    ensures Ordered(DropColumn(m, key).value.cols)
  {
    FilterKeepsOrdered(m.cols, HasOtherKey(key));
  }

  /** A label that occurs once is selected as exactly one column. */
  lemma SelectUnique(m: Matrix, key: Label, j: nat)
    requires DistinctLabels(m.cols) && j < |m.cols| && m.cols[j].key == key
    ensures SelectColumn(m, key).Ok? && SelectColumn(m, key).value.cols == [m.cols[j]]
  {
    FilterUnique(m.cols, key, j);
  }

  lemma {:induction false} FilterUnique(cols: seq<Column>, key: Label, j: nat)
    requires DistinctLabels(cols) && j < |cols| && cols[j].key == key
    ensures Filter(cols, HasKey(key)) == [cols[j]]
  {
    if j == 0 {
      FilterNone(cols[1..], HasKey(key));
    } else {
      FilterUnique(cols[1..], key, j - 1);
    }
  }

  /** `dados_reducao`: the five materials, indexed, with one column. */
  function ReductionTable(): (t: Matrix)
    ensures WellFormed(t)
  {
    Matrix(REDUCTION.Keys, [Column(POSSIVEL_REDUCAO, REDUCTION)])
  }

  /** create_final_datasets: the CE07 report from the CE07 pivot and the CE07
      stock column; the other report from the other pivot, the stock columns
      without CE07 and the reduction table. Selecting CE07 comes first, so a
      stock matrix without that site raises before anything is built. */
  function CreateFinalDatasets(zmb51PivotCe07: Matrix, zmb51PivotSemCe07: Matrix, zstokPivot: Matrix)
    : (r: Result<(Matrix, Matrix), Error>)
    ensures r.Err? <==> CE07_COLUMN !in LabelsOf(zstokPivot.cols)
    ensures r.Err? ==> r.error == KeyError(CE07_COLUMN)
  {
    match SelectColumn(zstokPivot, CE07_COLUMN)
    case Err(e) => Err(e)
    case Ok(zstokPivotCe07) =>
      var zmb51EstoqueCe07 := Concat([zmb51PivotCe07, zstokPivotCe07]);
      var zstokPivotSemCe07 := DropColumn(zstokPivot, CE07_COLUMN).value;
      var zmb51EstoqueSemCe07 := Concat([zmb51PivotSemCe07, zstokPivotSemCe07, ReductionTable()]);
      Ok((zmb51EstoqueCe07, zmb51EstoqueSemCe07))
  }

  /** The CE07 report: the rows of both inputs, the CE07 pivot's columns and
      then the stock columns labelled CE07 (exactly one when the stock labels
      are distinct), each cell read from the input that supplies its column. */
  lemma Ce07Report(ce07: Matrix, semCe07: Matrix, stock: Matrix)
    requires CE07_COLUMN in LabelsOf(stock.cols)
    ensures var report := CreateFinalDatasets(ce07, semCe07, stock).value.0;
      && report.rows == ce07.rows + stock.rows
      && report.cols == ce07.cols + SelectColumn(stock, CE07_COLUMN).value.cols
      && (forall j :: |ce07.cols| <= j < |report.cols| ==> report.cols[j].key == CE07_COLUMN)
      && (DistinctLabels(stock.cols) ==> |report.cols| == |ce07.cols| + 1)
  {
    var sel := SelectColumn(stock, CE07_COLUMN).value;
    ConcatPair(ce07, sel);
    if DistinctLabels(stock.cols) {
      var j :| 0 <= j < |stock.cols| && stock.cols[j].key == CE07_COLUMN;
      SelectUnique(stock, CE07_COLUMN, j);
    }
  }

  /** The other report: the rows of all three inputs (so always the five
      reduction materials), the other pivot's columns, the stock columns
      except CE07 and finally `possivel_reducao`. */
  lemma OtherReport(ce07: Matrix, semCe07: Matrix, stock: Matrix)
    requires CE07_COLUMN in LabelsOf(stock.cols)
    ensures var report := CreateFinalDatasets(ce07, semCe07, stock).value.1;
      && report.rows == semCe07.rows + stock.rows + REDUCTION.Keys
      && report.cols == semCe07.cols + DropColumn(stock, CE07_COLUMN).value.cols + [Column(POSSIVEL_REDUCAO, REDUCTION)]
      && (forall j :: |semCe07.cols| <= j < |report.cols| ==> report.cols[j].key != CE07_COLUMN)
  {
    ConcatTriple(semCe07, DropColumn(stock, CE07_COLUMN).value, ReductionTable());
  }

  /** In the other report `possivel_reducao` holds the fixed estimate for the
      five materials and is NaN (not 0) for every other material. */
  lemma ReductionColumn(ce07: Matrix, semCe07: Matrix, stock: Matrix, x: Material)
    requires CE07_COLUMN in LabelsOf(stock.cols)
    ensures var report := CreateFinalDatasets(ce07, semCe07, stock).value.1;
      && REDUCTION.Keys <= report.rows
      && |report.cols| > 0
      && report.cols[|report.cols| - 1].key == POSSIVEL_REDUCAO
      && Cell(report, x, |report.cols| - 1) == if x in REDUCTION then Some(REDUCTION[x]) else None
  {
    OtherReport(ce07, semCe07, stock);
  }

  /** Row alignment in the CE07 report: a pivot cell keeps its value, and a
      material the pivot lacks reads NaN in every pivot column. */
  lemma Ce07ReportCell(ce07: Matrix, semCe07: Matrix, stock: Matrix, x: Material, j: nat)
    requires CE07_COLUMN in LabelsOf(stock.cols) && WellFormed(ce07) && j < |ce07.cols|
    ensures var report := CreateFinalDatasets(ce07, semCe07, stock).value.0;
      j < |report.cols| && Cell(report, x, j) == if x in ce07.rows then Cell(ce07, x, j) else None
  {
    var sel := SelectColumn(stock, CE07_COLUMN).value;
    ConcatCell([ce07, sel], 0, j, x);
  }
}
