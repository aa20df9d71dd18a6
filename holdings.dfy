/** The records of the census extract: the raw rows as read from the file and
    the cleaned holding records that the dashboard works on. */
module Holdings {
  import opened Wrappers

  /** A float64 value as pandas holds it after `astype(float)`. Only its sign
      matters here, so finite values are kept as reals; NaN compares false with
      everything. */
  datatype Double = Finite(value: real) | PositiveInfinity | NegativeInfinity | NaN

  /** `d > 0` under IEEE comparison. */
  predicate IsPositive(d: Double)
  {
    match d
    case Finite(v) => v > 0.0
    case PositiveInfinity => true
    case NegativeInfinity => false
    case NaN => false
  }

  /** `d < 0` under IEEE comparison. */
  predicate IsNegative(d: Double)
  {
    match d
    case Finite(v) => v < 0.0
    case PositiveInfinity => false
    case NegativeInfinity => true
    case NaN => false
  }

  /** A municipality name; `None` is an empty MUNICIPIO cell (NaN in pandas). */
  type Municipality = Option<string>

  /** The numeric columns of a row, from column name to count; `None` is an
      empty cell (NaN). A column name that is not a key reads as an empty cell. */
  type Counts = map<string, Option<int>>

  /** One row of the extract as read: the MUNICIPIO cell, the LATITUD and
      LONGITUD cells as text (`None` for an empty cell) and the count columns. */
  datatype RawRow = RawRow(
    municipality: Municipality,
    latitude: Option<string>,
    longitude: Option<string>,
    counts: Counts)

  /** The extract: the header's column names in file order, and the rows.
      `read_csv` renames a repeated header name (`X`, `X.1`, ...), so a real
      header has no repeats; `columns` is not constrained to that, and a
      name repeated here would be summed once per occurrence. */
  datatype RawTable = RawTable(columns: seq<string>, rows: seq<RawRow>)

  /** A cleaned holding record: parsed coordinates, the count columns with the
      vaccinated-cattle columns filled, and the TOTAL_BOVINOS column. */
  datatype Holding = Holding(
    municipality: Municipality,
    latitude: Double,
    longitude: Double,
    counts: Counts,
    total: int)

  /** The value of a count cell with an empty cell read as 0 (`fillna(0)`). */
  function CountOrZero(counts: Counts, column: string): int
  {
    if column in counts && counts[column].Some? then counts[column].value else 0
  }

  /** The coordinate predicate `LATITUD > 0 and LONGITUD < 0`. */
  predicate HasValidCoordinates(h: Holding)
  {
    IsPositive(h.latitude) && IsNegative(h.longitude)
  }

  /** The TOTAL_BOVINOS column of a record. */
  function TotalOf(h: Holding): int
  {
    h.total
  }
}
