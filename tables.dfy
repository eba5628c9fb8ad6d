/** The three pre-aggregated tables the dashboard reads, one row per group of
    trips, and the selection made with its two sliders. Dates are day numbers
    (see `Calendar`); trip counts are integers and money and distance sums are
    exact reals. */
module Tables {

  /** A nullable column value; pandas' `notna` is `Some?`. */
  datatype Option<T> = None | Some(value: T)

  /** `agg_daily_hour`: trips of one pickup date and pickup hour. */
  datatype DailyHourRow = DailyHourRow(
    date: int,
    hour: int,
    trips: int,
    totalSum: real,
    fareSum: real,
    tipSum: real,
    distanceSum: real)

  /** `agg_zone_pickup_hour`: trips of one pickup zone and pickup hour within a month. */
  datatype ZoneHourRow = ZoneHourRow(
    year: int,
    month: int,
    hour: int,
    borough: Option<string>,
    zone: Option<string>,
    trips: int,
    totalSum: real)

  /** `agg_payment_hour`: trips of one pickup date, pickup hour and payment type. */
  datatype PaymentHourRow = PaymentHourRow(
    date: int,
    hour: int,
    paymentType: int,
    trips: int)

  /** The date slider's inclusive range and the hour slider's inclusive range. */
  datatype Selection = Selection(dateStart: int, dateEnd: int, hourMin: int, hourMax: int)

  /** Day numbers of 2025-06-01 and 2025-07-31, the ends of the date slider. */
  const DATE_MIN: int := 20240
  const DATE_MAX: int := 20300

  /** What the two sliders can produce: a date range within June and July
      2025 and an hour range within 0..23, each with its start not after its end. */
  predicate ValidSelection(sel: Selection) {
    && DATE_MIN <= sel.dateStart <= sel.dateEnd <= DATE_MAX
    && 0 <= sel.hourMin <= sel.hourMax <= 23
  }

  /** The sliders' initial position: the whole period and every hour. */
  const DEFAULT_SELECTION: Selection := Selection(DATE_MIN, DATE_MAX, 0, 23)

  /** The initial position is one the sliders can hold. */
  lemma DefaultIsValid()
    ensures ValidSelection(DEFAULT_SELECTION)
  {
  }
}
