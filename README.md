# Cauca cattle-vaccination observatory: record cleaning and aggregation

This project models the data pipeline inside the dashboard `app.py`. The input
is a census extract from the Cauca foot-and-mouth vaccination campaign, with
one row per land holding ("predio"). The model covers:

- **Cleaning (`load_data`).**
  - The LATITUD and LONGITUD columns are rewritten from decimal comma to
    decimal point and parsed.
  - The vaccinated-cattle count columns are those whose name contains
    `AFTOSA_BOVINOS` and does not contain `_AÑO`.
  - Empty cells in those columns are filled with 0, and the per-record
    `TOTAL_BOVINOS` is their sum.
  - Records are kept only if `LATITUD > 0 and LONGITUD < 0`.
- **Dashboard.**
  - The municipality selection: a non-empty selection keeps the records of
    the selected municipalities; an empty one keeps everything.
  - The two headline indicators: "Total Predios Filtrados" and
    "Población Bovina".
  - The municipality ranking: per-municipality sums of `TOTAL_BOVINOS`,
    largest first, cut to fifteen.
  - The zero-cattle anomalies and their count.

Modules, leaf first:

| file | module | contents |
|---|---|---|
| wrappers.dfy | `Wrappers` | `Option`, `Result` |
| sequences.dfy | `Sequences` | the order-preserving `Filter` behind every boolean mask `df[mask]`, `Sum`, the subsequence relation, and their lemmas |
| text.dfy | `Text` | character replacement (`str.replace(',', '.')`) and the substring test (`sub in s`) with its reference definition |
| holdings.dfy | `Holdings` | the raw rows and table, the cleaned `Holding` record, a float64 `Double` (real, ±infinity, NaN) and its sign tests |
| cleaning.dfy | `Cleaning` | `load_data`: spec functions (`ParseColumn`, `BucketColumns`, `FillMissing`, `RowTotal`, `Normalized`, `Load`) and the stage-by-stage methods (`ParseCoordinates`, `CleanRows`, `KeepValidCoordinates`, `LoadData`) proved equal to them |
| dashboard.dfy | `Dashboard` | selection, indicators, group-by, sort and top fifteen, anomalies |

Modelling choices:

- **Exact values, abstract floats.** Coordinates only matter through their
  signs. A parsed coordinate is a `Double`: a real, one of the two
  infinities, or NaN. NaN compares false with everything, so a NaN coordinate
  fails the coordinate predicate, as in pandas.
- **The float parser is a parameter.** `astype(float)` is the function
  parameter `parse: string -> Option<Double>`. A text it cannot parse
  (`None`) makes the whole load fail, as the `ValueError` does.
  - The load reports the column (LATITUD is checked before LONGITUD), the
    index of the first bad row and the rewritten text.
  - The error display at app.py:34-38 is reduced to that `Failure`.
- **An empty coordinate cell becomes `"nan"`.** This is what `astype(str)`
  turns a missing cell into. That text then goes to the parser.
- **Counts are integers.** An empty count cell is `None`. A column name that
  is not a key of a row's count map reads as an empty cell.
- **A municipality may be missing.** `Municipality` is `Option<string>`;
  `None` is an empty MUNICIPIO cell. Two pandas behaviours follow:
  - `isin` matches a missing value against a missing value in the
    selection. The model does the same, because `None in selection` is
    ordinary membership.
  - `groupby` drops missing keys by default. So the group totals add up to
    the population indicator minus the population of records without a
    municipality (`Dashboard.GroupTotalsAddUp`). They add up to the full
    indicator when every record names its municipality
    (`Dashboard.GroupTotalsAddUpToPopulation`).
- **Ranking order.** `sort_values` is given no stable sort kind, so the order
  of equal totals is not promised. The model sorts by insertion. It claims
  only that the result is ordered by total, largest first, and is a
  permutation of the groups.
- **The header has no repeated names.** `read_csv` renames a repeated
  column (`X`, `X.1`, ...), so a name occurs at most once in the header.
  `RawTable.columns` is not constrained this way. A repeated bucket name
  there would be counted once per occurrence by `RowTotal`, which pandas
  cannot produce.

Facts about app.py that shape the model:

- Count columns are selected only by the two substring tests of line 25.
  There is no catalog of column aliases and no age/sex breakdown.
- Cleaning of count columns is only `fillna(0)` (line 26). What happens
  to a count cell that is not a number is under "## Left out".
- No count of the records dropped by the coordinate filter (line 30) is
  computed or shown.
- The ranking sort (line 90) uses pandas' default sort kind, which is not
  stable, so the order among equal totals is not specified.

## Model

| member | source | states |
|---|---|---|
| `Text.ReplaceChar` | app.py:21-22 | the result has the input's length; each target character becomes the replacement and every other character is kept; the target is absent afterwards when it differs from the replacement |
| `Text.DecimalPoint` | app.py:21-22 | rewriting `,` to `.` leaves no comma, keeps the length, turns each comma into a point and leaves every other character unchanged |
| `Text.DecimalPointIdempotent` | app.py:21-22 | rewriting twice equals rewriting once; a text without commas is unchanged |
| `Text.Contains` | app.py:25 | Python's `sub in s` holds exactly when `sub` occurs at some index of `s` |
| `Cleaning.CoordinateText` | app.py:21-22 | the text passed to the float parser (the cell as `astype(str)` gives it, comma rewritten) contains no comma |
| `Cleaning.ParseColumn` | app.py:21-22 | a parsed column succeeds exactly when every text parses; then it has one value per row, each the parse of that row's text; otherwise it reports the first row that does not parse, and all rows before it parse |
| `Cleaning.ParseCoordinates` | app.py:21-22 | the cell-by-cell parsing loop returns exactly `ParseColumn` of the column |
| `Cleaning.BucketColumns` | app.py:25 | a header column is selected if and only if its name contains `AFTOSA_BOVINOS` and does not contain `_AÑO` (stated with the index-based substring definition); the selection keeps header order |
| `Cleaning.FillMissing` | app.py:26 | after filling, every selected column has a value; an empty or absent selected cell becomes 0; every count already present is unchanged; columns outside the selection are untouched |
| `Cleaning.FilledRowTotal` | app.py:26-27 | the total of the filled row equals the total of the raw row with empty cells counted as 0 |
| `Cleaning.TotalIgnoresOtherColumns` | app.py:25-27 | two rows whose counts agree on every vaccinated-cattle column have the same total, whatever the other columns hold |
| `Cleaning.RowTotal` | app.py:27 | the definition of `df[cols_bovinos].sum(axis=1)` for one row (the sum over the selected columns, an empty cell counting 0); its contract: the total is non-negative when every summed cell is; `Cleaning.FilledRowTotal` and `Cleaning.TotalIgnoresOtherColumns` are the lemmas about it |
| `Cleaning.RowTotalNonNegative` | app.py:27 | non-negative counts give a non-negative total |
| `Cleaning.Clean` | app.py:21-27 | a cleaned record keeps its municipality and parsed coordinates; its counts are the filled counts; its TOTAL_BOVINOS is the sum of its selected counts, empty counted as 0 |
| `Cleaning.Normalized` | app.py:21-27 | normalization succeeds exactly when every latitude and longitude text parses; then there is one record per row with that row's municipality, parsed coordinates, filled counts and total; otherwise the error names the first bad LATITUD row, or, when all latitudes parse, the first bad LONGITUD row, with its rewritten text |
| `Cleaning.Load` | app.py:16-32 | the load fails exactly when normalization fails, with the same error; on success every kept record satisfies `lat > 0 && lon < 0`; every normalized record that satisfies it is kept, as often as it occurs; the result is an order-preserving subsequence of the normalized records |
| `Cleaning.LoadedTotalsNonNegative` | app.py:26-30 | when every count in the extract is non-negative, every loaded record has a non-negative total |
| `Cleaning.CleanRows` | app.py:26-27 | the fill-and-total loop yields exactly one cleaned record per row, in order |
| `Cleaning.KeepValidCoordinates` | app.py:30 | the coordinate-filter loop yields exactly the filter of the records by the coordinate predicate |
| `Cleaning.LoadData` | app.py:16-32 | the stage-by-stage `load_data` returns exactly `Load` of the extract, including the error cases |
| `Dashboard.SelectMunicipalities` | app.py:49-52 | an empty selection returns all records; a non-empty one returns exactly the records whose municipality is selected, each as often as in the input; either way the result is an order-preserving subsequence |
| `Dashboard.Population` | app.py:57 | the definition of `df_filtered['TOTAL_BOVINOS'].sum()` (the sum of the records' totals); its contract: non-negative totals give a non-negative population; `Dashboard.GroupTotalsAddUp` and `Dashboard.AnomaliesCarryNoPopulation` are the lemmas about it |
| `Dashboard.KeyIndicators` | app.py:56-57 | the definition of the two indicators (record count and population); its contract: no records means no population, and non-negative totals give a non-negative population; `Dashboard.KeyIndicatorsAdditive` is the lemma about it |
| `Dashboard.KeyIndicatorsAdditive` | app.py:56-57 | the record count and the population of two parts add up to those of their concatenation |
| `Dashboard.MunicipalitiesOf` | app.py:90 | the group keys are distinct and are exactly the municipalities named by some record |
| `Dashboard.GroupByMunicipality` | app.py:90 | municipalities are distinct; every group total is the summed TOTAL_BOVINOS of that municipality's records; there is a group for exactly the municipalities that some record names |
| `Dashboard.GroupTotalsAddUp` | app.py:90 | the group totals add up to the population indicator (line 57) minus the population of records with no municipality |
| `Dashboard.GroupTotalsAddUpToPopulation` | app.py:90 | when every record names its municipality, the group totals add up to the population indicator |
| `Dashboard.InsertByTotal` | app.py:90 | insertion adds exactly the one element to the multiset of groups |
| `Dashboard.InsertKeepsOrder` | app.py:90 | insertion keeps a list ordered by total, largest first |
| `Dashboard.InsertKeepsDistinct` | app.py:90 | inserting a group for a new municipality keeps municipalities distinct |
| `Dashboard.SortByTotal` | app.py:90 | the sorted groups are a permutation of the groups, ordered by total, largest first |
| `Dashboard.SortKeepsDistinct` | app.py:90 | sorting keeps the municipalities distinct |
| `Dashboard.Ranking` | app.py:90 | `sort_values(ascending=False).head(15)` has min(15, number of groups) entries, ordered by total, largest first, all drawn from the groups, with distinct municipalities when the groups have them |
| `Dashboard.PrefixHoldsLargest` | app.py:90 | in a list ordered by total, no element outside a prefix is larger than an element inside it |
| `Dashboard.RankingHoldsLargest` | app.py:90 | a group left out of the top fifteen has a total no larger than any shown group; with at most fifteen groups every group is shown |
| `Dashboard.TopMunicipalities` | app.py:90 | the ranking of the active records' municipalities lists each municipality at most once |
| `Dashboard.Anomalies` | app.py:97 | the anomalies are an order-preserving subsequence of the active records and are exactly the active records with total 0, each as often as it occurs |
| `Dashboard.AnomaliesCarryNoPopulation` | app.py:97-98 | the non-anomalous records carry the whole population, and the anomaly count plus the non-anomalous count is the record-count indicator |
| `Dashboard.NonAnomaliesArePositive` | app.py:97 | when totals are non-negative, every active record that is not an anomaly has a positive total |
| `Dashboard.Show` | app.py:49-98 | the anomaly count equals the number of anomalies; it is at most the number of active records, which is at most the number of loaded records; the anomalies are an order-preserving subsequence of the loaded records, have total 0 and belong to selected municipalities |
| `Dashboard.RankingWithinSelection` | app.py:49-90 | with a non-empty selection, the ranking lists only selected municipalities |

## Left out

- Reading the file: `read_csv` with delimiter `;` and `latin1` decoding (app.py:18). The input is an extract already split into a header and rows.
- Float parsing (`astype(float)`, app.py:21-22): this is the parameter `parse`. The model does not define which texts parse to which values.
- Missing LATITUD, LONGITUD or MUNICIPIO columns: pandas raises `KeyError` for these. The model's row type always has the three fields, so this case cannot occur.
- Count cells that are not numbers: `read_csv` then gives that column a textual type. The row sum of line 27 either raises `TypeError` (pandas 2 and later), so the load fails through app.py:34-38, or leaves that column out of `TOTAL_BOVINOS` (pandas 1.x). The model's counts are integers, so it can produce neither outcome. For the same reason the float sum and the `int(...)` of line 57 need no modelling.
- The mean indicator and its one-decimal formatting (app.py:58-59): float division and formatting. The thousands-separator formatting of the other two indicators (app.py:56-57) is also left out.
- VEREDA, GANADERO and NOMBRE_PREDIO: these are only displayed in the anomaly table (app.py:109), so `Holding` does not carry them.
- Streamlit page setup, the sidebar widget and its default of the first three municipalities (app.py:9-12, 41-46): the selection is an input of the model.
- Tabs, the Folium heat map, the Plotly maps and bar chart, and the footer (app.py:62-113): presentation only.
- `@st.cache_data` memoisation (app.py:15): framework caching. Same extract, same result holds trivially, because the model is a function.
- Dashboard.SortByTotal: the order among equal totals is the model's own (insertion order). Pandas' unstable sort promises none, so only ordering by total and permutation are claimed. `groupby` returns its keys sorted by name (its default `sort=True`), but the unstable `sort_values` that follows does not keep that order among equal totals, so the model does not model it.
