/** Column labels of the matrices and the order pandas sorts them in. */
module LabelOrder {

  /** A calendar month, the value `to_period("M")` gives a date. */
  datatype MonthKey = MonthKey(year: int, month: int)

  /** A pandas column label: a monthly Period, or a string
      (a site code or the name of a derived column). */
  datatype Label = Period(month: MonthKey) | Name(name: string)

  /** Chronological order of months: by year, then by month. */
  predicate MonthLt(a: MonthKey, b: MonthKey) {
    a.year < b.year || (a.year == b.year && a.month < b.month)
  }

  predicate MonthLe(a: MonthKey, b: MonthKey) {
    MonthLt(a, b) || a == b
  }

  /** Python's string order: lexicographic by code point, a proper prefix first. */
  predicate StrLe(a: string, b: string)
    decreases |a|
  {
    |a| == 0 || (|b| > 0 && (a[0] < b[0] || (a[0] == b[0] && StrLe(a[1..], b[1..]))))
  }

  lemma {:induction false} StrLeTotal(a: string, b: string)
    ensures StrLe(a, b) || StrLe(b, a)
    decreases |a|
  {
    if |a| > 0 && |b| > 0 && a[0] == b[0] {
      StrLeTotal(a[1..], b[1..]);
    }
  }

  lemma {:induction false} StrLeAntisymmetric(a: string, b: string)
    requires StrLe(a, b) && StrLe(b, a)
    ensures a == b
    decreases |a|
  {
    if |a| > 0 {
      StrLeAntisymmetric(a[1..], b[1..]);
      assert a == [a[0]] + a[1..] && b == [b[0]] + b[1..];
    }
  }

  lemma {:induction false} StrLeTrans(a: string, b: string, c: string)
    requires StrLe(a, b) && StrLe(b, c)
    ensures StrLe(a, c)
    decreases |a|
  {
    if |a| > 0 && a[0] == b[0] && b[0] == c[0] {
      StrLeTrans(a[1..], b[1..], c[1..]);
    }
  }

  /** The order `sort_index` and `pivot_table` put column labels in. The
      columns of one pivot are all Periods or all strings; the relative
      place of a Period and a string (where pandas would refuse to compare)
      is fixed here only to make the order total. */
  predicate LabelLe(a: Label, b: Label) {
    match (a, b)
    case (Period(x), Period(y)) => MonthLe(x, y)
    case (Name(x), Name(y)) => StrLe(x, y)
    case (Period(_), Name(_)) => true
    case (Name(_), Period(_)) => false
  }

  lemma LabelLeTotal(a: Label, b: Label)
    ensures LabelLe(a, b) || LabelLe(b, a)
  {
    if a.Name? && b.Name? {
      StrLeTotal(a.name, b.name);
    }
  }

  lemma LabelLeTrans(a: Label, b: Label, c: Label)
    requires LabelLe(a, b) && LabelLe(b, c)
    ensures LabelLe(a, c)
  {
    if a.Name? && b.Name? && c.Name? {
      StrLeTrans(a.name, b.name, c.name);
    }
  }

  lemma LabelLeAntisymmetric(a: Label, b: Label)
    requires LabelLe(a, b) && LabelLe(b, a)
    ensures a == b
  {
    if a.Name? && b.Name? {
      StrLeAntisymmetric(a.name, b.name);
    }
  }
}
