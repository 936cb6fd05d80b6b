/** `pivot_table(index=..., columns=..., values=..., aggfunc=...)` on long
    rows reduced to (row key, column key, value). */
module Pivot {
  import opened Wrappers
  import opened Seqs
  import opened LabelOrder
  import opened WideMatrix

  /** One long-format observation. */
  datatype Entry = Entry(row: Material, col: Label, val: real)

  /** The two aggregators the pipeline uses: "sum", and pandas' default, the mean. */
  datatype Agg = Sum | Mean

  /** The values of the entries with row key `r` and column key `c`, in input order. */
  function Matches(es: seq<Entry>, r: Material, c: Label): (vs: seq<real>)
    ensures |vs| <= |es|
  {
    if es == [] then []
    else (if es[0].row == r && es[0].col == c then [es[0].val] else []) + Matches(es[1..], r, c)
  }

  /** A (row, column) pair has matches exactly when some entry carries it. */
  lemma {:induction false} MatchesEmpty(es: seq<Entry>, r: Material, c: Label)
    ensures Matches(es, r, c) == [] <==> forall i :: 0 <= i < |es| ==> !(es[i].row == r && es[i].col == c)
  {
    if es != [] {
      MatchesEmpty(es[1..], r, c);
      assert forall i :: 1 <= i < |es| ==> es[i] == es[1..][i - 1];
    }
  }

  function Aggregate(agg: Agg, vs: seq<real>): (v: real)
    requires vs != []
  {
    match agg
    case Sum => Total(vs)
    case Mean => Total(vs) / (|vs| as real)
  }

  function RowKeys(es: seq<Entry>): (xs: set<Material>) {
    set i | 0 <= i < |es| :: es[i].row
  }

  function ColumnKeys(es: seq<Entry>): (ks: seq<Label>) {
    Distinct(seq(|es|, i requires 0 <= i < |es| => es[i].col))
  }

  /** The column for key `c`: a value for each row with at least one match. */
  function AggColumn(es: seq<Entry>, agg: Agg, rows: set<Material>, c: Label): (col: Column) {
    Column(c, map r | r in rows && Matches(es, r, c) != [] :: Aggregate(agg, Matches(es, r, c)))
  }

  /** One column per distinct column key, before ordering. */
  function Grouped(es: seq<Entry>, agg: Agg): (g: Matrix) {
    var rows := RowKeys(es);
    var keys := ColumnKeys(es);
    Matrix(rows, seq(|keys|, j requires 0 <= j < |keys| => AggColumn(es, agg, rows, keys[j])))
  }

  /** `pivot_table`, which also orders the column labels. */
  function PivotTable(es: seq<Entry>, agg: Agg): (p: Matrix) {
    SortIndex(Grouped(es, agg))
  }

  lemma GroupedShape(es: seq<Entry>, agg: Agg)
    ensures var g := Grouped(es, agg);
      && WellFormed(g)
      && DistinctLabels(g.cols)
      && |g.cols| == |ColumnKeys(es)|
      && forall k :: 0 <= k < |g.cols| ==> g.cols[k].key == ColumnKeys(es)[k]
  {
  }

  /** The rows are the distinct row keys, and every cell belongs to a row. */
  lemma PivotRows(es: seq<Entry>, agg: Agg)
    ensures var p := PivotTable(es, agg);
      && WellFormed(p)
      && (forall x :: x in p.rows <==> exists i :: 0 <= i < |es| && es[i].row == x)
  {
    GroupedShape(es, agg);
  }

  /** The columns are the distinct column keys, each once and in ascending order. */
  lemma PivotColumns(es: seq<Entry>, agg: Agg)
    ensures var p := PivotTable(es, agg);
      && (forall i :: 0 <= i < |es| ==> es[i].col in LabelsOf(p.cols))
      && (forall j :: 0 <= j < |p.cols| ==> exists i :: 0 <= i < |es| && es[i].col == p.cols[j].key)
      && DistinctLabels(p.cols)
      && Ordered(p.cols)
  {
    var g := Grouped(es, agg);
    GroupedShape(es, agg);
    SortKeepsDistinct(g.cols);
    forall i | 0 <= i < |es| ensures es[i].col in LabelsOf(PivotTable(es, agg).cols) {
      EntryHasColumn(es, agg, i);
    }
    forall j | 0 <= j < |PivotTable(es, agg).cols|
      ensures exists i :: 0 <= i < |es| && es[i].col == PivotTable(es, agg).cols[j].key
    {
      ColumnHasEntry(es, agg, j);
    }
  }

  /** Every entry's column key labels a column of the pivot. */
  lemma EntryHasColumn(es: seq<Entry>, agg: Agg, i: nat)
    requires i < |es|
    ensures es[i].col in LabelsOf(PivotTable(es, agg).cols)
  {
    var raw := seq(|es|, i requires 0 <= i < |es| => es[i].col);
    GroupedShape(es, agg);
    assert raw[i] == es[i].col;
    KeyReachesColumn(ColumnKeys(es), Grouped(es, agg).cols, PivotTable(es, agg).cols, es[i].col);
  }

  /** A key of the grouped columns labels a column of any permutation of them. */
  lemma KeyReachesColumn(keys: seq<Label>, grouped: seq<Column>, sorted: seq<Column>, key: Label)
    requires |grouped| == |keys|
    requires forall k :: 0 <= k < |grouped| ==> grouped[k].key == keys[k]
    requires multiset(sorted) == multiset(grouped)
    requires key in keys
    ensures key in LabelsOf(sorted)
  {
    var k :| 0 <= k < |keys| && keys[k] == key;
    assert grouped[k] in multiset(sorted);
    var j :| 0 <= j < |sorted| && sorted[j] == grouped[k];
    assert LabelsOf(sorted)[j] == key;
  }

  /** Every column of the pivot is labelled by some entry's column key. */
  lemma ColumnHasEntry(es: seq<Entry>, agg: Agg, j: nat)
    requires j < |PivotTable(es, agg).cols|
    ensures exists i :: 0 <= i < |es| && es[i].col == PivotTable(es, agg).cols[j].key
  {
    var g := Grouped(es, agg);
    var p := PivotTable(es, agg);
    var keys := ColumnKeys(es);
    var raw := seq(|es|, i requires 0 <= i < |es| => es[i].col);
    GroupedShape(es, agg);
    assert p.cols[j] in multiset(g.cols);
    var k :| 0 <= k < |g.cols| && g.cols[k] == p.cols[j];
    assert keys[k] in raw;
    var i :| 0 <= i < |raw| && raw[i] == keys[k];
    assert es[i].col == p.cols[j].key;
  }

  /** Each cell aggregates the values of the entries with its row and column
      key, and is NaN exactly when there are none. */
  lemma PivotCell(es: seq<Entry>, agg: Agg, x: Material, j: nat)
    requires j < |PivotTable(es, agg).cols|
    ensures var p := PivotTable(es, agg); var vs := Matches(es, x, p.cols[j].key);
      && (Cell(p, x, j).None? <==> forall i :: 0 <= i < |es| ==> !(es[i].row == x && es[i].col == p.cols[j].key))
      && (Cell(p, x, j).Some? ==> vs != [] && Cell(p, x, j).value == Aggregate(agg, vs))
  {
    var g := Grouped(es, agg);
    var p := PivotTable(es, agg);
    assert p.cols[j] in multiset(g.cols);
    var k :| 0 <= k < |g.cols| && g.cols[k] == p.cols[j];
    var c := p.cols[j].key;
    MatchesEmpty(es, x, c);
    if Matches(es, x, c) != [] {
      var i :| 0 <= i < |es| && es[i].row == x && es[i].col == c;
      assert x in RowKeys(es);
    }
  }
}
