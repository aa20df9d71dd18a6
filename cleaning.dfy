/** The cleaning step `load_data` (app.py lines 16-32): coordinates rewritten from
    decimal comma and parsed, the vaccinated-cattle count columns chosen by name,
    their empty cells filled with 0, the per-record TOTAL_BOVINOS column added,
    and the records with implausible coordinates dropped. */
module Cleaning {
  import opened Wrappers
  import opened Sequences
  import opened Text
  import opened Holdings

  /** Columns holding vaccinated-cattle counts have this in their name ... */
  const CattleMarker: string := "AFTOSA_BOVINOS"
  /** ... unless their name also has this (which also excludes names with `_AÑOS`). */
  const YearMarker: string := "_AÑO"

  /** Why the load fails: a coordinate cell whose rewritten text is not a
      number (`astype(float)` raising ValueError), with the column, the row
      index and the rewritten text. */
  datatype LoadError = BadCoordinate(column: string, row: nat, text: string)

  // ---------------------------------------------------------------------------
  // Coordinates (app.py lines 21-22)

  /** `astype(str)` of a coordinate cell: an empty cell becomes "nan". */
  function CellText(cell: Option<string>): string
  {
    match cell
    case None => "nan"
    case Some(t) => t
  }

  /** The text handed to the float parser: the cell's text with `,` replaced by `.`. */
  function CoordinateText(cell: Option<string>): (r: string)
    ensures ',' !in r
  {
    DecimalPoint(CellText(cell))
  }

  /** `astype(float)` of a whole coordinate column of rewritten texts: every
      text parsed, or the index of the first text that does not parse. */
  function ParseColumn(texts: seq<string>, parse: string -> Option<Double>): (r: Result<seq<Double>, nat>)
    ensures r.Success? <==> forall i :: 0 <= i < |texts| ==> parse(texts[i]).Some?
    ensures r.Success? ==> |r.value| == |texts|
    ensures r.Success? ==> forall i :: 0 <= i < |texts| ==> parse(texts[i]) == Some(r.value[i])
    ensures r.Failure? ==> r.error < |texts| && parse(texts[r.error]).None?
    ensures r.Failure? ==> forall i :: 0 <= i < r.error ==> parse(texts[i]).Some?
  {
    if texts == [] then Success([])
    else
      match parse(texts[0])
      case None => Failure(0)
      case Some(d) =>
        match ParseColumn(texts[1..], parse)
        case Success(ds) => Success([d] + ds)
        case Failure(k) => Failure(k + 1)
  }

  /** The LATITUD column after `astype(str).str.replace(',', '.')`. */
  function LatitudeTexts(rows: seq<RawRow>): (r: seq<string>)
    // The element-wise reading of the comprehension, for the verifier.
    ensures |r| == |rows| && forall i :: 0 <= i < |rows| ==> r[i] == CoordinateText(rows[i].latitude)
  {
    seq(|rows|, i requires 0 <= i < |rows| => CoordinateText(rows[i].latitude))
  }

  /** The LONGITUD column after `astype(str).str.replace(',', '.')`. */
  function LongitudeTexts(rows: seq<RawRow>): (r: seq<string>)
    // The element-wise reading of the comprehension, for the verifier.
    ensures |r| == |rows| && forall i :: 0 <= i < |rows| ==> r[i] == CoordinateText(rows[i].longitude)
  {
    seq(|rows|, i requires 0 <= i < |rows| => CoordinateText(rows[i].longitude))
  }

  // ---------------------------------------------------------------------------
  // Count columns (app.py lines 25-27)

  /** The name test of the column comprehension. */
  predicate IsBucketColumn(column: string)
  {
    Contains(column, CattleMarker) && !Contains(column, YearMarker)
  }

  /** `cols_bovinos`: the header's columns that pass the name test, in header order. */
  function BucketColumns(columns: seq<string>): (r: seq<string>)
    ensures forall c :: c in r <==>
      c in columns
      && (exists i: nat :: OccursAt(c, CattleMarker, i))
      && !(exists i: nat :: OccursAt(c, YearMarker, i))
    ensures IsSubsequence(r, columns)
  {
    FilterSubsequence(columns, IsBucketColumn);
    Filter(columns, IsBucketColumn)
  }

  /** `fillna(0)` on the given columns. */
  function FillMissing(counts: Counts, columns: seq<string>): (r: Counts)
    ensures forall c :: c in columns ==> c in r && r[c].Some?
    ensures forall c :: c in columns && (c !in counts || counts[c].None?) ==> r[c] == Some(0)
    ensures forall c :: c in counts && counts[c].Some? ==> c in r && r[c] == counts[c]
    ensures forall c :: c !in columns ==> (c in r <==> c in counts)
    ensures forall c :: c !in columns && c in counts ==> r[c] == counts[c]
  {
    map c | c in counts.Keys + (set c | c in columns) ::
      if c in columns then Some(CountOrZero(counts, c)) else counts[c]
  }

  /** The count of a column in a row, empty read as 0, as a function of the column. */
  function CountIn(counts: Counts): string -> int
  {
    c => CountOrZero(counts, c)
  }

  /** `df[cols].sum(axis=1)` for one row: the sum of the row's counts in the
      given columns, an empty cell counting 0. The total is never negative
      when none of the summed cells is. */
  function RowTotal(counts: Counts, columns: seq<string>): (r: int)
    ensures (forall c :: c in columns ==> CountOrZero(counts, c) >= 0) ==> r >= 0
  {
    assert (forall c :: c in columns ==> CountOrZero(counts, c) >= 0) ==> Sum(columns, CountIn(counts)) >= 0 by {
      if forall c :: c in columns ==> CountOrZero(counts, c) >= 0 {
        SumNonNegative(columns, CountIn(counts));
      }
    }
    Sum(columns, CountIn(counts))
  }

  /** Filling the empty cells first does not change the row total. */
  lemma FilledRowTotal(counts: Counts, columns: seq<string>)
    ensures RowTotal(FillMissing(counts, columns), columns) == RowTotal(counts, columns)
  {
    var filled := FillMissing(counts, columns);
    forall c | c in columns ensures CountIn(filled)(c) == CountIn(counts)(c) {
    }
    SumFrame(columns, CountIn(filled), CountIn(counts));
  }

  /** The total depends only on the vaccinated-cattle columns: two rows whose
      counts agree on those columns have the same total, whatever their other
      columns hold. */
  lemma TotalIgnoresOtherColumns(columns: seq<string>, a: Counts, b: Counts)
    requires forall c :: IsBucketColumn(c) ==> CountOrZero(a, c) == CountOrZero(b, c)
    ensures RowTotal(a, BucketColumns(columns)) == RowTotal(b, BucketColumns(columns))
  {
    var cols := BucketColumns(columns);
    forall c | c in cols ensures CountIn(a)(c) == CountIn(b)(c) {
      assert IsBucketColumn(c);
    }
    SumFrame(cols, CountIn(a), CountIn(b));
  }

  /** Non-negative counts give a non-negative total. */
  lemma RowTotalNonNegative(counts: Counts, columns: seq<string>)
    requires forall c :: c in counts && counts[c].Some? ==> counts[c].value >= 0
    ensures RowTotal(counts, columns) >= 0
  {
    forall c | c in columns ensures CountIn(counts)(c) >= 0 {
    }
    SumNonNegative(columns, CountIn(counts));
  }

  // ---------------------------------------------------------------------------
  // The whole cleaning step

  /** One cleaned record: its parsed coordinates, the selected columns filled
      and TOTAL_BOVINOS the sum of the filled selected columns. */
  function Clean(row: RawRow, latitude: Double, longitude: Double, columns: seq<string>): (h: Holding)
    ensures h.municipality == row.municipality
    ensures h.latitude == latitude && h.longitude == longitude
    ensures h.counts == FillMissing(row.counts, columns)
    ensures h.total == RowTotal(row.counts, columns)
  {
    var filled := FillMissing(row.counts, columns);
    FilledRowTotal(row.counts, columns);
    Holding(row.municipality, latitude, longitude, filled, RowTotal(filled, columns))
  }

  /** The cleaned records, one per row, before the coordinate filter. */
  function CleanAll(rows: seq<RawRow>, latitudes: seq<Double>, longitudes: seq<Double>, columns: seq<string>): (r: seq<Holding>)
    requires |latitudes| == |rows| && |longitudes| == |rows|
    // The element-wise reading of the comprehension, for the verifier.
    ensures |r| == |rows|
    ensures forall i :: 0 <= i < |rows| ==> r[i] == Clean(rows[i], latitudes[i], longitudes[i], columns)
  {
    seq(|rows|, i requires 0 <= i < |rows| => Clean(rows[i], latitudes[i], longitudes[i], columns))
  }

  /** The table after lines 21-27: both coordinate columns parsed (LATITUD
      first), every row cleaned; or the first coordinate that fails to parse. */
  function Normalized(t: RawTable, parse: string -> Option<Double>): (r: Result<seq<Holding>, LoadError>)
    ensures r.Success? <==> forall i :: 0 <= i < |t.rows| ==>
      parse(CoordinateText(t.rows[i].latitude)).Some? && parse(CoordinateText(t.rows[i].longitude)).Some?
    ensures r.Success? ==> |r.value| == |t.rows|
    ensures r.Success? ==> forall i :: 0 <= i < |t.rows| ==>
      && r.value[i].municipality == t.rows[i].municipality
      && parse(CoordinateText(t.rows[i].latitude)) == Some(r.value[i].latitude)
      && parse(CoordinateText(t.rows[i].longitude)) == Some(r.value[i].longitude)
      && r.value[i].counts == FillMissing(t.rows[i].counts, BucketColumns(t.columns))
      && r.value[i].total == RowTotal(t.rows[i].counts, BucketColumns(t.columns))
    ensures r.Failure? && r.error.column == "LATITUD" ==>
      && r.error.row < |t.rows|
      && r.error.text == CoordinateText(t.rows[r.error.row].latitude)
      && parse(r.error.text).None?
      && forall i :: 0 <= i < r.error.row ==> parse(CoordinateText(t.rows[i].latitude)).Some?
    ensures r.Failure? && r.error.column == "LONGITUD" ==>
      && r.error.row < |t.rows|
      && r.error.text == CoordinateText(t.rows[r.error.row].longitude)
      && parse(r.error.text).None?
      && (forall i :: 0 <= i < |t.rows| ==> parse(CoordinateText(t.rows[i].latitude)).Some?)
      && forall i :: 0 <= i < r.error.row ==> parse(CoordinateText(t.rows[i].longitude)).Some?
    ensures r.Failure? ==> r.error.column == "LATITUD" || r.error.column == "LONGITUD"
  {
    var lats := LatitudeTexts(t.rows);
    var lons := LongitudeTexts(t.rows);
    match ParseColumn(lats, parse)
    case Failure(k) => Failure(BadCoordinate("LATITUD", k, lats[k]))
    case Success(latitudes) =>
      match ParseColumn(lons, parse)
      case Failure(k) => Failure(BadCoordinate("LONGITUD", k, lons[k]))
      case Success(longitudes) =>
        Success(CleanAll(t.rows, latitudes, longitudes, BucketColumns(t.columns)))
  }

  /** `load_data`: the normalized records that pass the coordinate predicate,
      in their original order; the load fails exactly when normalization does. */
  function Load(t: RawTable, parse: string -> Option<Double>): (r: Result<seq<Holding>, LoadError>)
    ensures r.Success? <==> Normalized(t, parse).Success?
    ensures r.Failure? ==> r == Normalized(t, parse)
    ensures r.Success? ==> forall h :: h in r.value ==> HasValidCoordinates(h)
    ensures r.Success? ==> forall h :: h in Normalized(t, parse).value && HasValidCoordinates(h) ==> h in r.value
    ensures r.Success? ==> IsSubsequence(r.value, Normalized(t, parse).value)
    ensures r.Success? ==> forall h ::
      multiset(r.value)[h] == if HasValidCoordinates(h) then multiset(Normalized(t, parse).value)[h] else 0
  {
    match Normalized(t, parse)
    case Failure(e) => Failure(e)
    case Success(all) =>
      FilterSubsequence(all, HasValidCoordinates);
      Success(Filter(all, HasValidCoordinates))
  }

  /** With non-negative counts in the extract, every loaded record has a
      non-negative total. */
  lemma LoadedTotalsNonNegative(t: RawTable, parse: string -> Option<Double>)
    requires forall i, c :: 0 <= i < |t.rows| && c in t.rows[i].counts && t.rows[i].counts[c].Some? ==>
      t.rows[i].counts[c].value >= 0
    requires Load(t, parse).Success?
    ensures forall h :: h in Load(t, parse).value ==> h.total >= 0
  {
    var all := Normalized(t, parse).value;
    forall h | h in Load(t, parse).value ensures h.total >= 0 {
      var i :| 0 <= i < |all| && all[i] == h;
      RowTotalNonNegative(t.rows[i].counts, BucketColumns(t.columns));
    }
  }

  // ---------------------------------------------------------------------------
  // The cleaning step as the program runs it, stage by stage

  /** One coordinate column rewritten and parsed cell by cell; stops at the
      first cell that does not parse. */
  method ParseCoordinates(texts: seq<string>, parse: string -> Option<Double>) returns (r: Result<seq<Double>, nat>)
    ensures r == ParseColumn(texts, parse)
  {
    var values: seq<Double> := [];
    for i := 0 to |texts|
      invariant |values| == i
      invariant forall j :: 0 <= j < i ==> parse(texts[j]) == Some(values[j])
    {
      var parsed := parse(texts[i]);
      if parsed.None? {
        ghost var spec := ParseColumn(texts, parse);
        assert spec.Failure? && spec.error == i;
        return Failure(i);
      }
      values := values + [parsed.value];
    }
    ghost var spec := ParseColumn(texts, parse);
    assert spec.Success? && spec.value == values by {
      assert spec.Success?;
      assert forall j :: 0 <= j < |texts| ==> spec.value[j] == values[j] by {
        forall j | 0 <= j < |texts| ensures spec.value[j] == values[j] {
          assert parse(texts[j]) == Some(spec.value[j]);
        }
      }
    }
    r := Success(values);
  }

  /** Lines 26-27 over all rows: fill the selected columns and add the row total. */
  method CleanRows(rows: seq<RawRow>, latitudes: seq<Double>, longitudes: seq<Double>, columns: seq<string>)
    returns (records: seq<Holding>)
    requires |latitudes| == |rows| && |longitudes| == |rows|
    ensures records == CleanAll(rows, latitudes, longitudes, columns)
  {
    records := [];
    for i := 0 to |rows|
      invariant |records| == i
      invariant forall j :: 0 <= j < i ==> records[j] == Clean(rows[j], latitudes[j], longitudes[j], columns)
    {
      records := records + [Clean(rows[i], latitudes[i], longitudes[i], columns)];
    }
  }

  /** Line 30: keep the records with plausible coordinates, in order. */
  method KeepValidCoordinates(records: seq<Holding>) returns (kept: seq<Holding>)
    ensures kept == Filter(records, HasValidCoordinates)
  {
    kept := [];
    for i := 0 to |records|
      invariant kept == Filter(records[..i], HasValidCoordinates)
    {
      FilterSnoc(records[..i], records[i], HasValidCoordinates);
      assert records[..i + 1] == records[..i] + [records[i]];
      if HasValidCoordinates(records[i]) {
        kept := kept + [records[i]];
      }
    }
    assert records[..|records|] == records;
  }

  /** `load_data` over an extract already split into rows. */
  method LoadData(t: RawTable, parse: string -> Option<Double>) returns (result: Result<seq<Holding>, LoadError>)
    ensures result == Load(t, parse)
  {
    var rows := t.rows;
    // LATITUD, then LONGITUD: rewrite the decimal comma and parse.
    var latTexts := LatitudeTexts(rows);
    var lats := ParseCoordinates(latTexts, parse);
    if lats.Failure? {
      return Failure(BadCoordinate("LATITUD", lats.error, latTexts[lats.error]));
    }
    var lonTexts := LongitudeTexts(rows);
    var lons := ParseCoordinates(lonTexts, parse);
    if lons.Failure? {
      return Failure(BadCoordinate("LONGITUD", lons.error, lonTexts[lons.error]));
    }
    // The vaccinated-cattle columns, filled, and their row totals.
    var columns := BucketColumns(t.columns);
    var records := CleanRows(rows, lats.value, lons.value, columns);
    // Drop the records with implausible coordinates.
    var kept := KeepValidCoordinates(records);
    result := Success(kept);
  }
}
