/** The long-format input rows of the pipeline. */
module Records {
  import opened LabelOrder

  /** A calendar date, already parsed into its parts. */
  datatype Date = Date(year: int, month: int, day: int)

  /** One row of the stock-movement extract (zmb51). */
  datatype Movement = Movement(
    material: string,
    centro: string,
    qtdUmRegistro: real,
    canal: string,
    dataDeLancamento: Date)

  /** One row of the stock extract (zstok); the query renames `cen` to `centro`. */
  datatype StockRow = StockRow(material: string, estoqueTotal: real, centro: string)

  /** A movement row together with the `ano_mes` column assigned to it. */
  datatype Bucketed = Bucketed(movement: Movement, anoMes: MonthKey)

  /** Chronological order of dates. */
  predicate DateLe(a: Date, b: Date) {
    a.year < b.year || (a.year == b.year && (a.month < b.month || (a.month == b.month && a.day <= b.day)))
  }

  /** `dt.to_period("M")`: the calendar month a date falls in. */
  function MonthOf(d: Date): (k: MonthKey) {
    MonthKey(d.year, d.month)
  }

  /** Bucketing by month respects chronology. */
  lemma MonthOfMonotone(a: Date, b: Date)
    requires DateLe(a, b)
    ensures MonthLe(MonthOf(a), MonthOf(b))
  {
  }
}
