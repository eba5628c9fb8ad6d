/** The filter-and-aggregate pipeline of the taxi dashboard (app/app.py):
    the hour slider filters all three tables, the date slider only the daily
    and payment tables (the zone table is cut to June–July 2025 by fixed year
    and month instead), and the filtered rows feed the KPI cards, the daily
    line chart, the hour × weekday heatmap, the top-20 zone table, the zone
    map and the payment bar chart. */
module TaxiDashboard {
  import opened Orders
  import opened Seqs
  import opened Grouping
  import opened Calendar
  import opened Tables
  import opened Ranking

  // ---------------------------------------------------------------------
  // Filters
  // ---------------------------------------------------------------------

  predicate InDates(d: int, sel: Selection) {
    sel.dateStart <= d <= sel.dateEnd
  }

  predicate InHours(h: int, sel: Selection) {
    sel.hourMin <= h <= sel.hourMax
  }

  /** `mask_d & mask_h`: pickup date and pickup hour inside both inclusive ranges. */
  function DailyMask(sel: Selection): DailyHourRow -> bool {
    (r: DailyHourRow) => InDates(r.date, sel) && InHours(r.hour, sel)
  }

  /** `dsel = daily_h.loc[mask_d & mask_h]` */
  function FilterDaily(rows: seq<DailyHourRow>, sel: Selection): (dsel: seq<DailyHourRow>)
    ensures SelectsInOrder(dsel, rows, DailyMask(sel))
    ensures forall r :: r in dsel <==>
      r in rows && sel.dateStart <= r.date <= sel.dateEnd && sel.hourMin <= r.hour <= sel.hourMax
  {
    FilterSelectsInOrder(rows, DailyMask(sel));
    Filter(rows, DailyMask(sel))
  }

  /** `mask_p`: the same four comparisons on the payment table. */
  function PaymentMask(sel: Selection): PaymentHourRow -> bool {
    (r: PaymentHourRow) => InDates(r.date, sel) && InHours(r.hour, sel)
  }

  /** `pay_sel = pay_h.loc[mask_p]` */
  function FilterPayments(rows: seq<PaymentHourRow>, sel: Selection): (psel: seq<PaymentHourRow>)
    ensures SelectsInOrder(psel, rows, PaymentMask(sel))
    ensures forall r :: r in psel <==>
      r in rows && sel.dateStart <= r.date <= sel.dateEnd && sel.hourMin <= r.hour <= sel.hourMax
  {
    FilterSelectsInOrder(rows, PaymentMask(sel));
    Filter(rows, PaymentMask(sel))
  }

  /** The zone table is filtered to the reporting period by fixed year and
      months, not by the date slider. */
  const REPORT_YEAR: int := 2025
  const REPORT_MONTHS: set<int> := {6, 7}

  /** `mask_z`: pickup hour inside the hour range. */
  function ZoneHourMask(hourMin: int, hourMax: int): ZoneHourRow -> bool {
    (r: ZoneHourRow) => hourMin <= r.hour <= hourMax
  }

  /** Second zone filter: year 2025, month June or July, borough and zone not null. */
  function ZonePeriodMask(): ZoneHourRow -> bool {
    (r: ZoneHourRow) => r.year == REPORT_YEAR && r.month in REPORT_MONTHS && r.borough.Some? && r.zone.Some?
  }

  function ZoneMask(hourMin: int, hourMax: int): ZoneHourRow -> bool {
    (r: ZoneHourRow) => ZoneHourMask(hourMin, hourMax)(r) && ZonePeriodMask()(r)
  }

  /** `zone_sel = zone_h.loc[mask_z]`, then the year, month and not-null filter.
      The two steps keep, in order, exactly the rows satisfying all of the
      conditions; the date range plays no part. */
  function FilterZones(rows: seq<ZoneHourRow>, sel: Selection): (zsel: seq<ZoneHourRow>)
    ensures SelectsInOrder(zsel, rows, ZoneMask(sel.hourMin, sel.hourMax))
    ensures forall r :: r in zsel <==>
      && r in rows
      && sel.hourMin <= r.hour <= sel.hourMax
      && r.year == 2025
      && (r.month == 6 || r.month == 7)
      && r.borough.Some? && r.zone.Some?
  {
    var hours := ZoneHourMask(sel.hourMin, sel.hourMax);
    FilterTwice(rows, hours, ZonePeriodMask(), ZoneMask(sel.hourMin, sel.hourMax));
    FilterSelectsInOrder(rows, ZoneMask(sel.hourMin, sel.hourMax));
    Filter(Filter(rows, hours), ZonePeriodMask())
  }

  /** The date slider does not reach the zone table. */
  lemma ZoneFilterIgnoresDates(rows: seq<ZoneHourRow>, sel: Selection, other: Selection)
    requires sel.hourMin == other.hourMin && sel.hourMax == other.hourMax
    ensures FilterZones(rows, sel) == FilterZones(rows, other)
  {
  }

  /** A selection that covers every row keeps the whole daily table. */
  lemma {:induction false} FullSelectionKeepsEveryRow(rows: seq<DailyHourRow>, sel: Selection)
    requires forall i :: 0 <= i < |rows| ==> InDates(rows[i].date, sel) && InHours(rows[i].hour, sel)
    ensures FilterDaily(rows, sel) == rows
  {
    FilterKeepsAll(rows, DailyMask(sel));
  }

  /** The sliders' initial position keeps every row of a daily table that lies
      in June–July 2025 with hours 0..23. */
  lemma DefaultSelectionKeepsPeriod(rows: seq<DailyHourRow>)
    requires forall i :: 0 <= i < |rows| ==> DATE_MIN <= rows[i].date <= DATE_MAX && 0 <= rows[i].hour <= 23
    ensures FilterDaily(rows, DEFAULT_SELECTION) == rows
  {
    FullSelectionKeepsEveryRow(rows, DEFAULT_SELECTION);
  }

  // ---------------------------------------------------------------------
  // KPIs
  // ---------------------------------------------------------------------

  function DailyDate(r: DailyHourRow): int { r.date }
  function DailyTrips(r: DailyHourRow): int { r.trips }
  function DailyRevenue(r: DailyHourRow): real { r.totalSum }
  function DailyFare(r: DailyHourRow): real { r.fareSum }
  function DailyTip(r: DailyHourRow): real { r.tipSum }
  function DailyDistance(r: DailyHourRow): real { r.distanceSum }

  /** The KPI cards: five totals and three weighted averages. */
  datatype Kpis = Kpis(
    trips: int,
    revenue: real,
    fare: real,
    tip: real,
    distance: real,
    avgFare: real,
    avgTipPct: real,
    avgMiles: real)

  /** `(num / den) if den else 0.0`: a quotient that falls back to 0 instead
      of dividing by zero. */
  function Ratio(num: real, den: real): (q: real)
    ensures den == 0.0 ==> q == 0.0
    ensures den != 0.0 ==> q * den == num
  {
    if den != 0.0 then num / den else 0.0
  }

  /** Totals over the filtered daily rows, then fare per trip, tip per fare
      and miles per trip, each 0 when its denominator is 0. */
  function ComputeKpis(dsel: seq<DailyHourRow>): (k: Kpis)
    ensures k.trips == SumInt(dsel, DailyTrips)
    ensures k.revenue == SumReal(dsel, DailyRevenue)
    ensures k.fare == SumReal(dsel, DailyFare)
    ensures k.tip == SumReal(dsel, DailyTip)
    ensures k.distance == SumReal(dsel, DailyDistance)
    ensures k.trips == 0 ==> k.avgFare == 0.0 && k.avgMiles == 0.0
    ensures k.trips != 0 ==> k.avgFare * (k.trips as real) == k.fare && k.avgMiles * (k.trips as real) == k.distance
    ensures k.fare == 0.0 ==> k.avgTipPct == 0.0
    ensures k.fare != 0.0 ==> k.avgTipPct * k.fare == k.tip
  {
    var trips := SumInt(dsel, DailyTrips);
    var revenue := SumReal(dsel, DailyRevenue);
    var fare := SumReal(dsel, DailyFare);
    var tip := SumReal(dsel, DailyTip);
    var distance := SumReal(dsel, DailyDistance);
    Kpis(trips, revenue, fare, tip, distance,
         Ratio(fare, trips as real), Ratio(tip, fare), Ratio(distance, trips as real))
  }

  /** A selection that matches no row shows zero on every card. */
  lemma EmptySelectionKpis(rows: seq<DailyHourRow>, sel: Selection)
    requires forall i :: 0 <= i < |rows| ==> !(InDates(rows[i].date, sel) && InHours(rows[i].hour, sel))
    ensures ComputeKpis(FilterDaily(rows, sel)) == Kpis(0, 0.0, 0.0, 0.0, 0.0, 0.0, 0.0, 0.0)
  {
  }

  /** Trip counts are never negative, so narrowing either slider never raises
      the trip total. */
  lemma NarrowerSelectionFewerTrips(rows: seq<DailyHourRow>, narrow: Selection, wide: Selection)
    requires forall i :: 0 <= i < |rows| ==> rows[i].trips >= 0
    requires wide.dateStart <= narrow.dateStart && narrow.dateEnd <= wide.dateEnd
    requires wide.hourMin <= narrow.hourMin && narrow.hourMax <= wide.hourMax
    ensures ComputeKpis(FilterDaily(rows, narrow)).trips <= ComputeKpis(FilterDaily(rows, wide)).trips
  {
    FilterSumMonotone(rows, DailyMask(narrow), DailyMask(wide), DailyTrips);
  }

  // ---------------------------------------------------------------------
  // Daily series
  // ---------------------------------------------------------------------

  /** `dsel.groupby("pickup_date").agg(trips=sum).sort_values("pickup_date")`:
      one point per date present, dates strictly ascending, each with the
      trips of that date. */
  function DailySeries(dsel: seq<DailyHourRow>): (series: seq<Group<int>>)
    ensures forall i, j :: 0 <= i < j < |series| ==> series[i].key < series[j].key
    ensures GroupKeys(series) == KeySet(dsel, DailyDate)
    ensures forall i :: 0 <= i < |series| ==> series[i].trips == SumIntWhere(dsel, DailyDate, series[i].key, DailyTrips)
  {
    IntLessIsStrictTotalOrder();
    GroupByTrips(dsel, DailyDate, DailyTrips, IntLess)
  }

  /** The line chart's points add up to the trips card. */
  lemma DailySeriesConservesTrips(dsel: seq<DailyHourRow>)
    ensures SumInt(DailySeries(dsel), GroupTrips) == ComputeKpis(dsel).trips
  {
    IntLessIsStrictTotalOrder();
    GroupByTripsConserves(dsel, DailyDate, DailyTrips, IntLess);
  }

  // ---------------------------------------------------------------------
  // Heatmap: hour × day of week
  // ---------------------------------------------------------------------

  /** A filtered daily row with its `pickup_dow_num` column. */
  datatype DowRow = DowRow(row: DailyHourRow, dow: int)

  function DowRowTrips(x: DowRow): int { x.row.trips }
  function HourDowKey(x: DowRow): (int, int) { (x.row.hour, x.dow) }

  /** `dsel["pickup_dow_num"] = dayofweek + 1`: every row, in place, paired
      with the weekday of its date, Monday = 1 … Sunday = 7. */
  function WithDayOfWeek(dsel: seq<DailyHourRow>): (rows: seq<DowRow>)
    ensures |rows| == |dsel|
    ensures forall i :: 0 <= i < |rows| ==> rows[i].row == dsel[i] && rows[i].dow == DayOfWeek(dsel[i].date)
    ensures forall i :: 0 <= i < |rows| ==> 1 <= rows[i].dow <= 7
  {
    seq(|dsel|, i requires 0 <= i < |dsel| => DowRow(dsel[i], DayOfWeek(dsel[i].date)))
  }

  /** `groupby(["pickup_hour", "pickup_dow_num"]).agg(trips=sum)`: one cell
      per (hour, weekday) present, in ascending (hour, weekday) order. */
  function Heatmap(dsel: seq<DailyHourRow>): (heat: seq<Group<(int, int)>>)
    ensures forall i, j :: 0 <= i < j < |heat| ==> PairLess(heat[i].key, heat[j].key)
    ensures GroupKeys(heat) == KeySet(WithDayOfWeek(dsel), HourDowKey)
    ensures forall i :: 0 <= i < |heat| ==>
      heat[i].trips == SumIntWhere(WithDayOfWeek(dsel), HourDowKey, heat[i].key, DowRowTrips)
  {
    PairLessIsStrictTotalOrder();
    GroupByTrips(WithDayOfWeek(dsel), HourDowKey, DowRowTrips, PairLess)
  }

  /** The heatmap's cells add up to the trips card. */
  lemma HeatmapConservesTrips(dsel: seq<DailyHourRow>)
    ensures SumInt(Heatmap(dsel), GroupTrips) == ComputeKpis(dsel).trips
  {
    PairLessIsStrictTotalOrder();
    GroupByTripsConserves(WithDayOfWeek(dsel), HourDowKey, DowRowTrips, PairLess);
    SumIntPointwise(WithDayOfWeek(dsel), DowRowTrips, dsel, DailyTrips);
  }

  /** Every heatmap cell lies in the selected hours and on a weekday 1..7. */
  lemma HeatmapCellsInRange(rows: seq<DailyHourRow>, sel: Selection)
    ensures var heat := Heatmap(FilterDaily(rows, sel));
      forall i :: 0 <= i < |heat| ==>
        sel.hourMin <= heat[i].key.0 <= sel.hourMax && 1 <= heat[i].key.1 <= 7
  {
    var dsel := FilterDaily(rows, sel);
    var heat := Heatmap(dsel);
    var dows := WithDayOfWeek(dsel);
    forall i | 0 <= i < |heat|
      ensures sel.hourMin <= heat[i].key.0 <= sel.hourMax && 1 <= heat[i].key.1 <= 7
    {
      assert heat[i] in heat;
      assert heat[i].key in KeySet(dows, HourDowKey);
      KeySetMembers(dows, HourDowKey, heat[i].key);
      var j :| 0 <= j < |dows| && HourDowKey(dows[j]) == heat[i].key;
      assert dsel[j] in dsel;
    }
  }

  // ---------------------------------------------------------------------
  // Zone ranking and zone map
  // ---------------------------------------------------------------------

  /** The value of a column the zone filter has already checked not to be null.
      `None` maps to `""`, so on an unfiltered table a null name would share a
      group with an empty name, where pandas' `groupby` drops null keys. The
      zone groupings are only ever applied to `FilterZones`' output, which
      keeps no null borough or zone, so the two agree there. */
  function NameOf(o: Option<string>): string {
    match o
    case Some(v) => v
    case None => ""
  }

  function ZoneKey(r: ZoneHourRow): (string, string) { (NameOf(r.borough), NameOf(r.zone)) }
  function ZoneNameKey(r: ZoneHourRow): string { NameOf(r.zone) }
  function ZoneTrips(r: ZoneHourRow): int { r.trips }
  function ZoneRevenue(r: ZoneHourRow): real { r.totalSum }
  function RankTrips(g: ZoneRank): int { g.trips }

  ghost function RankedZones(groups: seq<ZoneRank>): set<(string, string)> {
    set g | g in groups :: ZoneOf(g)
  }

  /** `zone_sel.groupby(["borough", "zone"]).agg(trips=sum, revenue_total=sum)`:
      one row per (borough, zone) present, in ascending name order, with the
      summed trips and revenue of its rows. */
  function ZoneGroups(zsel: seq<ZoneHourRow>): (groups: seq<ZoneRank>)
    ensures forall i, j :: 0 <= i < j < |groups| ==> StringPairLess(ZoneOf(groups[i]), ZoneOf(groups[j]))
    ensures RankedZones(groups) == KeySet(zsel, ZoneKey)
    ensures forall i :: 0 <= i < |groups| ==>
      && groups[i].trips == SumIntWhere(zsel, ZoneKey, ZoneOf(groups[i]), ZoneTrips)
      && groups[i].revenue == SumRealWhere(zsel, ZoneKey, ZoneOf(groups[i]), ZoneRevenue)
  {
    StringPairLessIsStrictTotalOrder();
    var g := GroupByTrips(zsel, ZoneKey, ZoneTrips, StringPairLess);
    var groups := seq(|g|, i requires 0 <= i < |g| =>
      ZoneRank(g[i].key.0, g[i].key.1, g[i].trips, SumRealWhere(zsel, ZoneKey, g[i].key, ZoneRevenue)));
    assert forall i :: 0 <= i < |g| ==> ZoneOf(groups[i]) == g[i].key;
    assert RankedZones(groups) == GroupKeys(g) by {
      forall z | z in GroupKeys(g) ensures z in RankedZones(groups) {
        var x :| x in g && x.key == z;
        var i :| 0 <= i < |g| && g[i] == x;
        assert groups[i] in groups;
      }
    }
    groups
  }

  lemma ZoneGroupsDistinct(zsel: seq<ZoneHourRow>)
    ensures DistinctZones(ZoneGroups(zsel))
  {
    StringPairLessIsStrictTotalOrder();
  }

  /** Grouping by zone conserves the filtered trips. */
  lemma ZoneGroupsConserveTrips(zsel: seq<ZoneHourRow>)
    ensures SumInt(ZoneGroups(zsel), RankTrips) == SumInt(zsel, ZoneTrips)
  {
    StringPairLessIsStrictTotalOrder();
    var g := GroupByTrips(zsel, ZoneKey, ZoneTrips, StringPairLess);
    GroupByTripsConserves(zsel, ZoneKey, ZoneTrips, StringPairLess);
    SumIntPointwise(ZoneGroups(zsel), RankTrips, g, GroupTrips);
  }

  /** `top_zones`: the (borough, zone) groups sorted by trips, most first,
      cut to twenty. Each zone appears at most once, every row is one of the
      groups, and a group left out has no more trips than any group shown. */
  function TopZoneTable(zsel: seq<ZoneHourRow>): (top: seq<ZoneRank>)
    ensures |top| <= TOP_N
    ensures |top| == TOP_N || |top| == |ZoneGroups(zsel)|
    ensures ByTripsDescending(top)
    ensures DistinctZones(top)
    ensures multiset(top) <= multiset(ZoneGroups(zsel))
    ensures forall g :: g in ZoneGroups(zsel) && g !in top ==> forall x :: x in top ==> g.trips <= x.trips
  {
    ZoneGroupsDistinct(zsel);
    TopZonesDistinct(ZoneGroups(zsel));
    TopZones(ZoneGroups(zsel))
  }

  /** Some row of the zone table in the selected hours of June or July 2025
      has this ranking row's borough and zone, both non-null. */
  ghost predicate NamedBySelectedRow(x: ZoneRank, zones: seq<ZoneHourRow>, sel: Selection) {
    exists j :: 0 <= j < |zones| &&
      zones[j].borough == Some(x.borough) && zones[j].zone == Some(x.zone) &&
      sel.hourMin <= zones[j].hour <= sel.hourMax && zones[j].year == 2025 &&
      (zones[j].month == 6 || zones[j].month == 7)
  }

  /** Every ranked zone is a real, named zone seen in the selected hours, and
      its trips are the trips of its rows. */
  lemma TopZonesComeFromSelectedRows(zones: seq<ZoneHourRow>, sel: Selection)
    ensures var zsel := FilterZones(zones, sel);
      forall x :: x in TopZoneTable(zsel) ==>
        && NamedBySelectedRow(x, zones, sel)
        && x.trips == SumIntWhere(zsel, ZoneKey, ZoneOf(x), ZoneTrips)
  {
    var zsel := FilterZones(zones, sel);
    var groups := ZoneGroups(zsel);
    forall x | x in TopZoneTable(zsel)
      ensures NamedBySelectedRow(x, zones, sel)
      ensures x.trips == SumIntWhere(zsel, ZoneKey, ZoneOf(x), ZoneTrips)
    {
      assert x in multiset(groups);
      assert x in groups;
      assert ZoneOf(x) in RankedZones(groups);
      ZoneRowNamed(zones, sel, zsel, x);
    }
  }

  lemma ZoneRowNamed(zones: seq<ZoneHourRow>, sel: Selection, zsel: seq<ZoneHourRow>, x: ZoneRank)
    requires forall r :: r in zsel ==>
      && r in zones
      && sel.hourMin <= r.hour <= sel.hourMax
      && r.year == 2025
      && (r.month == 6 || r.month == 7)
      && r.borough.Some? && r.zone.Some?
    requires ZoneOf(x) in KeySet(zsel, ZoneKey)
    ensures NamedBySelectedRow(x, zones, sel)
  {
    KeySetMembers(zsel, ZoneKey, ZoneOf(x));
    var k :| 0 <= k < |zsel| && ZoneKey(zsel[k]) == ZoneOf(x);
    var r := zsel[k];
    assert r in zsel;
    var j :| 0 <= j < |zones| && zones[j] == r;
  }

  /** `mapdf = zone_sel.groupby(["zone"]).agg(trips=sum)`: one row per zone
      name present, in ascending name order, with its summed trips. */
  function ZoneMap(zsel: seq<ZoneHourRow>): (m: seq<Group<string>>)
    ensures forall i, j :: 0 <= i < j < |m| ==> StringLess(m[i].key, m[j].key)
    ensures GroupKeys(m) == KeySet(zsel, ZoneNameKey)
    ensures forall i :: 0 <= i < |m| ==> m[i].trips == SumIntWhere(zsel, ZoneNameKey, m[i].key, ZoneTrips)
  {
    StringLessIsStrictTotalOrder();
    GroupByTrips(zsel, ZoneNameKey, ZoneTrips, StringLess)
  }

  /** The map and the full zone grouping show the same number of trips. */
  lemma ZoneMapAgreesWithGroups(zsel: seq<ZoneHourRow>)
    ensures SumInt(ZoneMap(zsel), GroupTrips) == SumInt(ZoneGroups(zsel), RankTrips)
  {
    StringLessIsStrictTotalOrder();
    GroupByTripsConserves(zsel, ZoneNameKey, ZoneTrips, StringLess);
    ZoneGroupsConserveTrips(zsel);
  }

  // ---------------------------------------------------------------------
  // Payment series
  // ---------------------------------------------------------------------

  function PaymentKey(r: PaymentHourRow): (int, int) { (r.date, r.paymentType) }
  function PaymentTrips(r: PaymentHourRow): int { r.trips }

  /** `pay_sel.groupby(["pickup_date", "payment_type"]).agg(trips=sum)`: one
      bar segment per (date, payment type) present, in ascending order. */
  function PaymentSeries(psel: seq<PaymentHourRow>): (bars: seq<Group<(int, int)>>)
    ensures forall i, j :: 0 <= i < j < |bars| ==> PairLess(bars[i].key, bars[j].key)
    ensures GroupKeys(bars) == KeySet(psel, PaymentKey)
    ensures forall i :: 0 <= i < |bars| ==> bars[i].trips == SumIntWhere(psel, PaymentKey, bars[i].key, PaymentTrips)
  {
    PairLessIsStrictTotalOrder();
    GroupByTrips(psel, PaymentKey, PaymentTrips, PairLess)
  }

  lemma PaymentSeriesConservesTrips(psel: seq<PaymentHourRow>)
    ensures SumInt(PaymentSeries(psel), GroupTrips) == SumInt(psel, PaymentTrips)
  {
    PairLessIsStrictTotalOrder();
    GroupByTripsConserves(psel, PaymentKey, PaymentTrips, PairLess);
  }

  // ---------------------------------------------------------------------
  // The whole page
  // ---------------------------------------------------------------------

  /** Everything the page shows for one position of the sliders. */
  datatype Dashboard = Dashboard(
    kpis: Kpis,
    daily: seq<Group<int>>,
    heat: seq<Group<(int, int)>>,
    topZones: seq<ZoneRank>,
    zoneMap: seq<Group<string>>,
    payments: seq<Group<(int, int)>>)

  /** One pass of the script: filter the three tables, then aggregate. */
  function Render(daily: seq<DailyHourRow>, zones: seq<ZoneHourRow>, payments: seq<PaymentHourRow>, sel: Selection): (d: Dashboard)
    ensures |d.topZones| <= TOP_N
    ensures forall i, j :: 0 <= i < j < |d.daily| ==> d.daily[i].key < d.daily[j].key
    ensures forall i :: 0 <= i < |d.daily| ==> sel.dateStart <= d.daily[i].key <= sel.dateEnd
  {
    var dsel := FilterDaily(daily, sel);
    var zsel := FilterZones(zones, sel);
    var psel := FilterPayments(payments, sel);
    var view := Dashboard(
      ComputeKpis(dsel),
      DailySeries(dsel),
      Heatmap(dsel),
      TopZoneTable(zsel),
      ZoneMap(zsel),
      PaymentSeries(psel));
    assert forall i :: 0 <= i < |view.daily| ==> sel.dateStart <= view.daily[i].key <= sel.dateEnd by {
      forall i | 0 <= i < |view.daily| ensures sel.dateStart <= view.daily[i].key <= sel.dateEnd {
        assert view.daily[i] in view.daily;
        KeySetMembers(dsel, DailyDate, view.daily[i].key);
        var j :| 0 <= j < |dsel| && dsel[j].date == view.daily[i].key;
        assert dsel[j] in dsel;
      }
    }
    view
  }

  /** The trips card, the line chart and the heatmap agree, and so do the
      map and the zone grouping behind the ranking. */
  lemma RenderTotalsAgree(daily: seq<DailyHourRow>, zones: seq<ZoneHourRow>, payments: seq<PaymentHourRow>, sel: Selection)
    ensures var d := Render(daily, zones, payments, sel);
      && SumInt(d.daily, GroupTrips) == d.kpis.trips
      && SumInt(d.heat, GroupTrips) == d.kpis.trips
      && SumInt(d.zoneMap, GroupTrips) == SumInt(FilterZones(zones, sel), ZoneTrips)
      && SumInt(d.payments, GroupTrips) == SumInt(FilterPayments(payments, sel), PaymentTrips)
  {
    var dsel := FilterDaily(daily, sel);
    var zsel := FilterZones(zones, sel);
    DailySeriesConservesTrips(dsel);
    HeatmapConservesTrips(dsel);
    ZoneMapAgreesWithGroups(zsel);
    ZoneGroupsConserveTrips(zsel);
    PaymentSeriesConservesTrips(FilterPayments(payments, sel));
  }
}
