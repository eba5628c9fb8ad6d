# NYC taxi dashboard: filter-and-aggregate pipeline

This project models the computation at the heart of the NYC taxi dashboard (`app/app.py`). The page reads three
pre-aggregated tables: trips per pickup date and hour, trips per pickup zone and hour, and trips per
pickup date, hour and payment type. The hour slider filters all three tables. The date slider filters
the daily and payment tables only. The zone table is cut to June–July 2025 by a fixed year and month,
so the ranking and the map always cover the whole period. This differs from the code's own comment at
app/app.py:33, which says every table is filtered; `ZoneFilterIgnoresDates` proves the date slider has
no effect there. The filtered rows then feed:

- the KPI cards: total trips, revenue, fare, tip and distance, with three guarded weighted averages;
- the daily line chart: one point per date, ascending;
- the hour × weekday heatmap, with weekdays numbered 1 = Monday … 7 = Sunday;
- the top-20 zone table, by trips;
- the zone map;
- the payment bar chart, by date and payment type.

The source is written as whole-table pandas expressions with no loops and no object state, so the model is
made of datatypes, functions and lemmas:

- `tables.dfy` (module `Tables`): the row types, the nullable `Option`, the slider `Selection`.
- `calendar.dfy` (module `Calendar`): day numbers and the day-of-week column.
- `orders.dfy` (module `Orders`): the key orders a sorted `groupby` uses. These are integers, integer
  pairs, and Python's code-point order on strings and string pairs. Each is proved a strict total order.
- `seqs.dfy` (module `Seqs`): boolean-mask selection, column sums, per-key sums and the ascending list of
  distinct keys.
- `grouping.dfy` (module `Grouping`): `groupby(...).agg(trips=sum)` and its conservation of totals.
- `ranking.dfy` (module `Ranking`): sorting by trips descending and `head(20)`.
- `dashboard.dfy` (module `TaxiDashboard`): the pipeline of `app/app.py` and the properties that tie its
  outputs together.

Representation choices:

- Dates are integer day numbers counted from 1970-01-01, which was a Thursday. 2025-06-01 is day 20240
  and 2025-07-31 is day 20300.
- The weekday column is pandas' `dayofweek + 1`, that is `(d + 3) % 7 + 1`, with Euclidean `%`.
- Trip counts are `int`. Money and distance sums are exact `real`s.
- Payment types are integer codes, so the payment chart's (date, payment type) keys sort as integer pairs.
- The two sliders become a `Selection` value. The filters accept any bounds, because nothing in the
  code relies on the slider's guarantees. `ValidSelection` records those guarantees, and
  `DEFAULT_SELECTION`, the sliders' initial position, is proved to satisfy them.

Two points about the code that the model follows:

- The hour filter is exact, because the daily table carries `pickup_hour` (app/app.py:24, 35).
  No hour ratio is computed, and none is modelled.
- The average guards use Python truthiness (`if trips_total`, `if fare_sum`, app/app.py:54-56),
  which means "denominator ≠ 0". `Ratio` follows that.

## Model

| member | source | states |
|---|---|---|
| `Seqs.Filter` | app/app.py:34-36 | `df.loc[mask]`: an element is in the result exactly when it is in the table and the mask holds for it |
| `Seqs.FilterSelectsInOrder` | app/app.py:36 | the selection lists exactly the rows at the positions where the mask holds, in their original order, and drops every other row |
| `Seqs.Positions` | app/app.py:36 | the kept positions are ascending, in range, and are exactly the indices whose row satisfies the mask |
| `Seqs.FilterTwice` | app/app.py:38-41 | filtering by the hour mask and then by the period mask keeps the same rows as filtering once by their conjunction |
| `Seqs.FilterKeepsAll` | app/app.py:36 | a mask that holds on every row keeps the table unchanged |
| `Seqs.FilterSumMonotone` | app/app.py:48 | with non-negative values, a mask that implies another gives a sum no larger than the other mask's |
| `Seqs.SumInt` | app/app.py:48 | `df[col].sum()` on an integer column: never negative when no value is negative |
| `Seqs.SumReal` | app/app.py:49-52 | `df[col].sum()` on a money or distance column: never negative when no value is negative |
| `Seqs.SumIntWhere` | app/app.py:60 | one `sum` cell of a group-by (also lines 69-70, 77, 88, 103): 0 for a key no row carries; with non-negative values, between 0 and the column total |
| `Seqs.SumRealWhere` | app/app.py:78 | the `revenue` cell of a zone group: 0 for a key no row carries; with non-negative amounts, between 0 and the column total |
| `Seqs.SumIntWhereIsFilteredSum` | app/app.py:59-60 | one group's sum equals the column sum over the rows that the group's key selects |
| `Seqs.SumOverKeysConserves` | app/app.py:59-60 | adding up the per-key sums over distinct keys that cover every row's key gives the column total |
| `Seqs.SortedKeys` | app/app.py:59 | the group labels are strictly ascending and are exactly the keys that occur in the table |
| `Seqs.InsertKey` | app/app.py:59 | adding a key to a strictly ascending key list keeps it strictly ascending, and the result holds the old keys plus the new one |
| `Grouping.GroupByTrips` | app/app.py:59-60 | one output row per distinct key, keys strictly ascending; each row's trips are the trips of exactly the rows with that key |
| `Grouping.GroupByTripsConserves` | app/app.py:59-60 | the group sums add up to the column total, so grouping neither loses nor double-counts trips |
| `Orders.StringLess` | app/app.py:76 | Python's `str` `<` on group keys (also lines 87-88): true exactly when `a` is a proper prefix of `b`, or `a` has the smaller character at the first position where they differ |
| `Orders.PairLessIsStrictTotalOrder` | app/app.py:69 | the lexicographic order on (hour, weekday) and (date, payment type) keys (also line 102) is irreflexive, transitive and total |
| `Orders.StringPairLessIsStrictTotalOrder` | app/app.py:76 | the lexicographic order on (borough, zone) keys is irreflexive, transitive and total |
| `Orders.StringLessIsStrictTotalOrder` | app/app.py:76 | Python's string order, used to sort zone-name group keys, is irreflexive, transitive and total |
| `Orders.StringLessTransitive` | app/app.py:76 | if a < b and b < c in string order then a < c |
| `Orders.StringLessConnected` | app/app.py:76 | any two different strings are ordered one way or the other |
| `Calendar.PandasDayOfWeek` | app/app.py:68 | `dt.dayofweek`: always in 0..6 |
| `Calendar.DayOfWeek` | app/app.py:68 | the weekday number always lies in 1..7 |
| `Calendar.EpochIsThursday` | app/app.py:68 | day 0 (1970-01-01) gets number 4, Thursday |
| `Calendar.NextDay` | app/app.py:68 | each next day gets the next weekday number, and Sunday (7) is followed by Monday (1) |
| `Calendar.WeeksApart` | app/app.py:68 | dates a whole number of weeks apart, forwards or backwards, get the same weekday number |
| `Calendar.June2nd2025IsMonday` | app/app.py:68 | 2025-06-02 gets number 1, Monday, as in ISO 8601 |
| `Ranking.InsertByTrips` | app/app.py:79 | inserting into a list sorted by trips descending keeps it sorted and adds exactly the one element |
| `Ranking.SortByTrips` | app/app.py:79 | `sort_values("trips", ascending=False)` returns a permutation of the groups with trips non-increasing |
| `Ranking.TopZones` | app/app.py:79-80 | `head(20)` of the sorted groups: length min(20, n), non-increasing, drawn from the groups; a group left out has no more trips than any group shown; no row exceeds the first |
| `Ranking.SortKeepsZonesDistinct` | app/app.py:79 | sorting neither merges nor duplicates (borough, zone) groups |
| `Ranking.TopZonesDistinct` | app/app.py:79-80 | the ranking has at most one row per (borough, zone) when the grouping does |
| `Tables.DefaultIsValid` | app/app.py:29-31 | the sliders' initial position (all of June–July 2025, hours 0..23) is one the sliders can hold |
| `TaxiDashboard.FilterDaily` | app/app.py:34-36 | keeps, in order, exactly the daily rows with start ≤ date ≤ end and hmin ≤ hour ≤ hmax |
| `TaxiDashboard.FilterPayments` | app/app.py:43-45 | keeps, in order, exactly the payment rows that satisfy all four inclusive comparisons |
| `TaxiDashboard.FilterZones` | app/app.py:38-41 | keeps, in order, exactly the zone rows in the hour range with year 2025, month 6 or 7 and both borough and zone non-null |
| `TaxiDashboard.ZoneFilterIgnoresDates` | app/app.py:38-41 | two selections with the same hours filter the zone table identically, because no date condition applies |
| `TaxiDashboard.FullSelectionKeepsEveryRow` | app/app.py:34-36 | a selection covering every row's date and hour returns the daily table unchanged |
| `TaxiDashboard.DefaultSelectionKeepsPeriod` | app/app.py:29-36 | the sliders' initial position keeps every daily row of June–July 2025 with hour 0..23 |
| `TaxiDashboard.Ratio` | app/app.py:54-56 | the guarded quotient is 0 when the denominator is 0, and otherwise multiplies back to the numerator |
| `TaxiDashboard.ComputeKpis` | app/app.py:48-56 | the five totals are the column sums of the filtered rows; avg fare and avg miles are 0 with no trips and otherwise fare or distance per trip; avg tip is 0 with zero fare and otherwise tip per fare |
| `TaxiDashboard.EmptySelectionKpis` | app/app.py:48-56 | a selection that matches no row gives zero on every card, without dividing by zero |
| `TaxiDashboard.NarrowerSelectionFewerTrips` | app/app.py:34-48 | with non-negative trip counts, narrowing the date or hour range never raises the trips card |
| `TaxiDashboard.DailySeries` | app/app.py:59-61 | one point per distinct pickup date among the filtered rows, dates strictly ascending, each point carrying the trips of that date |
| `TaxiDashboard.DailySeriesConservesTrips` | app/app.py:48-61 | the daily points add up to the trips card |
| `TaxiDashboard.WithDayOfWeek` | app/app.py:68 | each filtered row is paired, in order, with its weekday number 1..7 |
| `TaxiDashboard.Heatmap` | app/app.py:69-70 | one cell per (hour, weekday) present, ascending; each cell carries the trips of the rows with that hour and weekday |
| `TaxiDashboard.HeatmapConservesTrips` | app/app.py:68-70 | the heatmap cells add up to the trips card |
| `TaxiDashboard.HeatmapCellsInRange` | app/app.py:68-70 | every heatmap cell lies within the selected hours and has a weekday in 1..7 |
| `TaxiDashboard.ZoneGroups` | app/app.py:76-78 | one row per (borough, zone) present, names strictly ascending, with the summed trips and revenue of its rows |
| `TaxiDashboard.ZoneGroupsDistinct` | app/app.py:76-78 | no (borough, zone) is grouped twice |
| `TaxiDashboard.ZoneGroupsConserveTrips` | app/app.py:76-78 | the zone groups add up to the filtered zone trips |
| `TaxiDashboard.TopZoneTable` | app/app.py:76-80 | at most 20 rows, and exactly 20 unless fewer groups exist; trips non-increasing; each (borough, zone) at most once; rows drawn from the groups; no group left out has more trips than a group shown |
| `TaxiDashboard.TopZonesComeFromSelectedRows` | app/app.py:38-41 | every ranked zone is named by a zone row with non-null borough and zone, in the selected hours of June or July 2025, and carries the trips of its rows |
| `TaxiDashboard.ZoneRowNamed` | app/app.py:40-41 | a grouped zone key comes from a filtered row, so its names are that row's non-null borough and zone |
| `TaxiDashboard.ZoneMap` | app/app.py:87-88 | one row per zone name present, names ascending, with the summed trips |
| `TaxiDashboard.ZoneMapAgreesWithGroups` | app/app.py:76-88 | the map and the (borough, zone) grouping behind the ranking show the same trip total |
| `TaxiDashboard.PaymentSeries` | app/app.py:102-103 | one bar segment per (date, payment type) present, ascending, with the trips of exactly those rows |
| `TaxiDashboard.PaymentSeriesConservesTrips` | app/app.py:102-103 | the payment segments add up to the filtered payment trips |
| `TaxiDashboard.Render` | app/app.py:33-103 | one pass of the page: at most 20 ranked zones, and daily points strictly ascending within the selected date range |
| `TaxiDashboard.RenderTotalsAgree` | app/app.py:48-103 | the trips card, the line chart and the heatmap show the same total; the map and the payment chart add up to their filtered tables |

## Left out

- Reading secrets, the S3 location and the Parquet files (app/app.py:8-26) is I/O. The three tables are
  input sequences.
- The Streamlit sliders (app/app.py:29-31) are UI. Their values are the `Selection` parameter.
  `ValidSelection` states what the sliders guarantee; no operation requires it.
- Building and drawing the Plotly charts (app/app.py:62-64, 71-73, 89-99, 104-106) is presentation.
- Reading the GeoJSON file (app/app.py:84-85) is file I/O. Plotly matches zones to shapes by
  `featureidkey`, which is not part of this model.
- Converting timestamps to dates (`pd.to_datetime`) is a library call. Dates are day numbers, and the
  weekday follows from the fixed weekday of day 0.
- Floating point is not modelled. Amounts are exact reals, so IEEE rounding and NaN are absent.
- The `int(...)` around the trip sum (app/app.py:48) is modelled as the identity, since the trips
  column holds integers.
- NaN in numeric columns and pandas' dropping of NaN group keys are not modelled. Nullable borough and
  zone are `Option`, and the zone filter removes the null ones before any grouping.
- `.copy()` and adding `pickup_dow_num` to `dsel` in place (app/app.py:68) are modelled by value:
  `WithDayOfWeek` returns the rows paired with their weekday.
- Ranking.SortByTrips: pandas' default sort is not stable, so the order of zones with equal trips is
  unspecified. The contract therefore leaves tie order open. The model itself uses a stable insertion
  sort, which is one admissible outcome.
- TaxiDashboard.Render: its own contract states only the ranking bound and the daily ordering and range.
  The other properties of each output are stated on the member that computes it and in
  `RenderTotalsAgree`.
