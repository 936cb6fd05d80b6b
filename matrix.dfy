/** The wide matrix: a set of material rows and an ordered sequence of
    labelled columns, each holding a value for some of the rows. */
module WideMatrix {
  import opened Wrappers
  import opened Seqs
  import opened LabelOrder

  /** A stock-keeping unit identifier, the row key of every matrix. */
  type Material = string

  /** One column: its key and the rows that have a value in it. A row of
      the matrix that is not a key of `values` is NaN in this column. */
  datatype Column = Column(key: Label, values: map<Material, real>)

  /** Rows are unique (a set); columns are ordered and, as in pandas, two
      columns may carry the same key. */
  datatype Matrix = Matrix(rows: set<Material>, cols: seq<Column>)

  /** Every column only holds values for rows of the matrix. */
  predicate WellFormed(m: Matrix) {
    forall j :: 0 <= j < |m.cols| ==> m.cols[j].values.Keys <= m.rows
  }

  function LabelsOf(cols: seq<Column>): (ls: seq<Label>)
    ensures |ls| == |cols|
    ensures forall j :: 0 <= j < |cols| ==> ls[j] == cols[j].key
  {
    seq(|cols|, j requires 0 <= j < |cols| => cols[j].key)
  }

  /** The cell in row `r` and column position `j`; `None` is NaN. */
  function Cell(m: Matrix, r: Material, j: nat): (v: Option<real>)
    requires j < |m.cols|
  {
    if r in m.cols[j].values then Some(m.cols[j].values[r]) else None
  }

  // ---------------------------------------------------------------------
  // Row statistics

  function Total(xs: seq<real>): (t: real) {
    if xs == [] then 0.0 else xs[0] + Total(xs[1..])
  }

  lemma {:induction false} TotalAppend(a: seq<real>, b: seq<real>)
    ensures Total(a + b) == Total(a) + Total(b)
  {
    if a == [] {
      assert a + b == b;
    } else {
      TotalAppend(a[1..], b);
      assert (a + b)[1..] == a[1..] + b;
    }
  }

  /** pandas' `mean` with `skipna`: the mean of the values present, and NaN
      when there are none. */
  function MeanOf(xs: seq<real>): (r: Option<real>)
    ensures r.None? <==> xs == []
    ensures r.Some? ==> r.value * (|xs| as real) == Total(xs)
  {
    if xs == [] then None else Some(Total(xs) / (|xs| as real))
  }

  /** The values row `r` holds in `cols`, left to right, NaN cells skipped. */
  function PresentValues(cols: seq<Column>, r: Material): (vs: seq<real>)
    ensures |vs| <= |cols|
  {
    if cols == [] then []
    else Present(cols[0], r) + PresentValues(cols[1..], r)
  }

  /** The value row `r` holds in column `c`, if any, as a sequence of at most one. */
  function Present(c: Column, r: Material): (vs: seq<real>)
    ensures |vs| <= 1
    ensures vs == [] <==> r !in c.values
    ensures vs != [] ==> vs[0] == c.values[r]
  {
    if r in c.values then [c.values[r]] else []
  }

  lemma {:induction false} PresentValuesAppend(a: seq<Column>, b: seq<Column>, r: Material)
    ensures PresentValues(a + b, r) == PresentValues(a, r) + PresentValues(b, r)
  {
    if a == [] {
      assert a + b == b;
    } else {
      var h := Present(a[0], r);
      PresentValuesAppend(a[1..], b, r);
      assert (a + b)[0] == a[0];
      assert (a + b)[1..] == a[1..] + b;
      assert PresentValues(a + b, r) == h + (PresentValues(a[1..], r) + PresentValues(b, r));
      assert PresentValues(a, r) == h + PresentValues(a[1..], r);
      ConcatAssoc(h, PresentValues(a[1..], r), PresentValues(b, r));
    }
  }

  lemma ConcatAssoc(a: seq<real>, b: seq<real>, c: seq<real>)
    ensures a + (b + c) == (a + b) + c
  {
  }

  /** `frame[cols].mean(axis=1)`: per row, the mean of its present values
      in `cols`; a row with no value there gets none. */
  function RowMeans(rows: set<Material>, cols: seq<Column>): (means: map<Material, real>)
    ensures means.Keys <= rows
    ensures forall r :: r in rows ==>
      MeanOf(PresentValues(cols, r)) == if r in means then Some(means[r]) else None
  {
    map r | r in rows && PresentValues(cols, r) != [] ::
      Total(PresentValues(cols, r)) / (|PresentValues(cols, r)| as real)
  }

  /** A sum of values within `[lo, hi]` lies between `n * lo` and `n * hi`. */
  lemma {:induction false} TotalBounds(xs: seq<real>, lo: real, hi: real)
    requires forall i :: 0 <= i < |xs| ==> lo <= xs[i] <= hi
    ensures (|xs| as real) * lo <= Total(xs) <= (|xs| as real) * hi
  {
    if xs != [] {
      TotalBounds(xs[1..], lo, hi);
      assert (|xs| as real) * lo == lo + (|xs[1..]| as real) * lo;
      assert (|xs| as real) * hi == hi + (|xs[1..]| as real) * hi;
    }
  }

  /** The mean of values within `[lo, hi]` lies within `[lo, hi]`. */
  lemma MeanBounds(xs: seq<real>, lo: real, hi: real)
    requires xs != []
    requires forall i :: 0 <= i < |xs| ==> lo <= xs[i] <= hi
    ensures MeanOf(xs).Some? && lo <= MeanOf(xs).value <= hi
  {
    TotalBounds(xs, lo, hi);
    var n := |xs| as real;
    var m := MeanOf(xs).value;
    assert m * n == Total(xs) && n > 0.0;
    if m < lo {
      assert false;
    }
    if m > hi {
      assert false;
    }
  }

  /** A row mean lies between the smallest and the largest value the row
      holds in the window, and a row has a mean exactly when it holds one. */
  lemma RowMeanBounds(rows: set<Material>, cols: seq<Column>, r: Material, lo: real, hi: real)
    requires r in rows
    requires forall i :: 0 <= i < |PresentValues(cols, r)| ==> lo <= PresentValues(cols, r)[i] <= hi
    ensures r in RowMeans(rows, cols) <==> PresentValues(cols, r) != []
    ensures r in RowMeans(rows, cols) ==> lo <= RowMeans(rows, cols)[r] <= hi
  {
    if PresentValues(cols, r) != [] {
      MeanBounds(PresentValues(cols, r), lo, hi);
    }
  }

  /** `iloc[:, -k:]`: the last `k` columns, or all of them when there are fewer. */
  function Last(cols: seq<Column>, k: nat): (t: seq<Column>)
    requires k > 0
    ensures |t| == if |cols| < k then |cols| else k
    ensures t == cols[|cols| - |t|..]
  {
    if |cols| <= k then cols else cols[|cols| - k..]
  }

  // ---------------------------------------------------------------------
  // Column order

  /** Column labels are in ascending order. */
  predicate Ordered(cols: seq<Column>) {
    forall i :: 0 < i < |cols| ==> LabelLe(cols[i - 1].key, cols[i].key)
  }

  /** No key occurs twice. */
  predicate DistinctLabels(cols: seq<Column>) {
    forall i, j :: 0 <= i < j < |cols| ==> cols[i].key != cols[j].key
  }

  function Insert(c: Column, s: seq<Column>): (r: seq<Column>)
    requires Ordered(s)
    ensures Ordered(r)
    ensures multiset(r) == multiset(s) + multiset{c}
    ensures |r| == |s| + 1 && (r[0] == c || (s != [] && r[0] == s[0]))
  {
    if s == [] || LabelLe(c.key, s[0].key) then [c] + s
    else
      LabelLeTotal(c.key, s[0].key);
      assert s == [s[0]] + s[1..];
      [s[0]] + Insert(c, s[1..])
  }

  /** The columns in ascending key order, a permutation of the input. */
  function SortColumns(cols: seq<Column>): (r: seq<Column>)
    ensures Ordered(r)
    ensures multiset(r) == multiset(cols)
  {
    if cols == [] then []
    else
      assert cols == [cols[0]] + cols[1..];
      Insert(cols[0], SortColumns(cols[1..]))
  }

  /** `sort_index(axis=1)`: the same rows and columns, columns by ascending key. */
  function SortIndex(m: Matrix): (r: Matrix)
    ensures r.rows == m.rows
    ensures Ordered(r.cols)
    ensures multiset(r.cols) == multiset(m.cols)
    ensures WellFormed(m) ==> WellFormed(r)
  {
    var r := Matrix(m.rows, SortColumns(m.cols));
    assert forall j :: 0 <= j < |r.cols| ==> r.cols[j] in m.cols by {
      forall j | 0 <= j < |r.cols| ensures r.cols[j] in m.cols {
        assert r.cols[j] in multiset(r.cols);
      }
    }
    r
  }

  /** Sorting columns that are already in order changes nothing. */
  lemma {:induction false} SortIndexNoOp(m: Matrix)
    requires Ordered(m.cols)
    ensures SortIndex(m) == m
  {
    SortColumnsNoOp(m.cols);
  }

  lemma {:induction false} SortColumnsNoOp(cols: seq<Column>)
    requires Ordered(cols)
    ensures SortColumns(cols) == cols
  {
    if cols != [] {
      SortColumnsNoOp(cols[1..]);
      assert cols == [cols[0]] + cols[1..];
    }
  }

  lemma {:induction false} InsertKeepsDistinct(c: Column, s: seq<Column>)
    requires Ordered(s) && DistinctLabels(s)
    requires forall i :: 0 <= i < |s| ==> s[i].key != c.key
    ensures DistinctLabels(Insert(c, s))
  {
    if s != [] && !LabelLe(c.key, s[0].key) {
      var t := Insert(c, s[1..]);
      InsertKeepsDistinct(c, s[1..]);
      forall j | 0 <= j < |t| ensures t[j].key != s[0].key {
        assert t[j] in multiset(t);
        assert t[j] == c || t[j] in s[1..];
      }
    }
  }

  /** Sorting keeps the labels distinct when they were. */
  lemma {:induction false} SortKeepsDistinct(cols: seq<Column>)
    requires DistinctLabels(cols)
    ensures DistinctLabels(SortColumns(cols))
  {
    if cols != [] {
      var t := SortColumns(cols[1..]);
      SortKeepsDistinct(cols[1..]);
      forall i | 0 <= i < |t| ensures t[i].key != cols[0].key {
        assert t[i] in multiset(t);
        assert t[i] in cols[1..];
      }
      InsertKeepsDistinct(cols[0], t);
    }
  }

  /** A mask over columns with distinct labels keeps them distinct. */
  lemma {:induction false} FilterKeepsDistinct(cols: seq<Column>, p: Column -> bool)
    requires DistinctLabels(cols)
    ensures DistinctLabels(Filter(cols, p))
  {
    if cols != [] {
      var t := Filter(cols[1..], p);
      FilterKeepsDistinct(cols[1..], p);
      forall j | 0 <= j < |t| ensures t[j].key != cols[0].key {
        assert t[j] in cols[1..];
        var k :| 0 <= k < |cols[1..]| && cols[1..][k] == t[j];
        assert cols[k + 1] == t[j];
      }
    }
  }

  /** In ascending columns the first label is below every later one. */
  lemma {:induction false} HeadBelow(cols: seq<Column>, j: nat)
    requires Ordered(cols) && 0 < j < |cols|
    ensures LabelLe(cols[0].key, cols[j].key)
    decreases j
  {
    if j > 1 {
      HeadBelow(cols, j - 1);
      LabelLeTrans(cols[0].key, cols[j - 1].key, cols[j].key);
    }
  }

  /** A mask over ascending columns keeps them ascending. */
  lemma {:induction false} FilterKeepsOrdered(cols: seq<Column>, p: Column -> bool)
    requires Ordered(cols)
    ensures Ordered(Filter(cols, p))
  {
    if cols != [] {
      var t := Filter(cols[1..], p);
      assert Ordered(cols[1..]) by {
        forall i | 0 < i < |cols[1..]| ensures LabelLe(cols[1..][i - 1].key, cols[1..][i].key) {
          assert cols[1..][i - 1] == cols[i] && cols[1..][i] == cols[i + 1];
        }
      }
      FilterKeepsOrdered(cols[1..], p);
      if p(cols[0]) && t != [] {
        var k :| 0 <= k < |cols[1..]| && cols[1..][k] == t[0];
        assert cols[k + 1] == t[0];
        HeadBelow(cols, k + 1);
        assert Filter(cols, p) == [cols[0]] + t;
      }
    }
  }

  /** Distinct labels in ascending order are strictly ascending. */
  lemma StrictlyAscending(cols: seq<Column>, i: nat)
    requires Ordered(cols) && DistinctLabels(cols)
    requires 0 < i < |cols|
    ensures LabelLe(cols[i - 1].key, cols[i].key) && cols[i - 1].key != cols[i].key
  {
  }

  // ---------------------------------------------------------------------
  // Column assignment and concatenation

  /** `frame[key] = values`: the series is aligned on the frame's rows (its
      entries for other rows are dropped); a column with that key is
      overwritten, otherwise the column is appended at the right. */
  function Assigned(m: Matrix, key: Label, values: map<Material, real>): (r: Matrix)
    ensures r.rows == m.rows
    ensures WellFormed(m) ==> WellFormed(r)
    ensures key in LabelsOf(r.cols)
  {
    var col := Aligned(key, values, m.rows);
    if key in LabelsOf(m.cols) then
      var r := Matrix(m.rows, seq(|m.cols|, j requires 0 <= j < |m.cols| => if m.cols[j].key == key then col else m.cols[j]));
      assert forall j :: 0 <= j < |m.cols| && m.cols[j].key == key ==> LabelsOf(r.cols)[j] == key;
      r
    else
      assert LabelsOf(m.cols + [col])[|m.cols|] == key;
      Matrix(m.rows, m.cols + [col])
  }

  /** A series aligned on a frame's rows: it keeps exactly the entries for
      those rows. */
  function Aligned(key: Label, values: map<Material, real>, rows: set<Material>): (c: Column)
    ensures c.key == key
    ensures forall x :: x in c.values <==> x in values && x in rows
    ensures forall x :: x in c.values ==> c.values[x] == values[x]
  {
    Column(key, map x | x in values && x in rows :: values[x])
  }

  /** Assigning a new key appends one column and keeps the others; the new
      column holds exactly the assigned values of the frame's rows. */
  lemma AssignedAppends(m: Matrix, key: Label, values: map<Material, real>, x: Material)
    requires key !in LabelsOf(m.cols)
    ensures var r := Assigned(m, key, values);
      && r == Matrix(m.rows, m.cols + [Aligned(key, values, m.rows)])
      && |r.cols| == |m.cols| + 1
      && r.cols[..|m.cols|] == m.cols
      && r.cols[|m.cols|].key == key
      && Cell(r, x, |m.cols|) == if x in values && x in m.rows then Some(values[x]) else None
  {
  }

  /** `pd.concat(ms, axis=1)`: the union of the rows, the columns side by
      side in argument order. Labels are not checked for collisions. */
  function Concat(ms: seq<Matrix>): (r: Matrix)
    ensures forall x :: x in r.rows <==> exists i :: 0 <= i < |ms| && x in ms[i].rows
    ensures (forall i :: 0 <= i < |ms| ==> WellFormed(ms[i])) ==> WellFormed(r)
  {
    if ms == [] then Matrix({}, [])
    else
      var rest := Concat(ms[1..]);
      assert forall i :: 1 <= i < |ms| ==> ms[i] == ms[1..][i - 1];
      Matrix(ms[0].rows + rest.rows, ms[0].cols + rest.cols)
  }

  /** The position of the first column of `ms[i]` in the concatenation. */
  function Offset(ms: seq<Matrix>, i: nat): (o: nat)
    requires i <= |ms|
  {
    if i == 0 then 0 else |ms[0].cols| + Offset(ms[1..], i - 1)
  }

  /** Row alignment: each input's columns appear, unchanged and in order, at
      their offset in the concatenation; a row the input lacks reads NaN there. */
  lemma {:induction false} ConcatCell(ms: seq<Matrix>, i: nat, j: nat, x: Material)
    requires i < |ms| && j < |ms[i].cols| && WellFormed(ms[i])
    ensures Offset(ms, i) + j < |Concat(ms).cols|
    ensures Concat(ms).cols[Offset(ms, i) + j] == ms[i].cols[j]
    ensures Cell(Concat(ms), x, Offset(ms, i) + j) == if x in ms[i].rows then Cell(ms[i], x, j) else None
  {
    if i > 0 {
      ConcatCell(ms[1..], i - 1, j, x);
    }
  }

  lemma ConcatPair(a: Matrix, b: Matrix)
    ensures Concat([a, b]) == Matrix(a.rows + b.rows, a.cols + b.cols)
  {
    assert [a, b][1..] == [b];
    assert [b][1..] == [];
    assert Concat([b]) == Matrix(b.rows + {}, b.cols + []);
    assert b.cols + [] == b.cols;
  }

  lemma ConcatTriple(a: Matrix, b: Matrix, c: Matrix)
    ensures Concat([a, b, c]) == Matrix(a.rows + b.rows + c.rows, a.cols + b.cols + c.cols)
  {
    assert [a, b, c][1..] == [b, c];
    ConcatPair(b, c);
  }
}
