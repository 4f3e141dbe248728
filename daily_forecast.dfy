/** The daily list: a week or ten-day window over the parallel daily
    sequences, the "Today" marker and the width of the temperature-range bar. */
module DailyForecast {
  import opened JsSemantics
  import opened WeatherLib
  import opened HourlyForecast

  datatype ViewMode = Week | Extended

  const InitialViewMode := Week

  function DaysToShow(mode: ViewMode): (n: nat)
    ensures mode == Week <==> n == 7
    ensures mode == Extended <==> n == 10
  {
    match mode
    case Week => 7
    case Extended => 10
  }

  /** The list opens in the week view: seven days under "7-Day Forecast". */
  lemma InitialViewIsWeek()
    ensures DaysToShow(InitialViewMode) == 7
    ensures Heading(InitialViewMode) == "7-Day Forecast"
  {
  }

  /** Decimal digits of a natural number. */
  function DecimalText(n: nat): (s: string)
    ensures |s| > 0 && forall i :: 0 <= i < |s| ==> '0' <= s[i] <= '9'
  {
    var digit := ('0' as int + n % 10) as char;
    if n < 10 then [digit] else DecimalText(n / 10) + [digit]
  }

  /** The heading always announces how many days the list shows. */
  function Heading(mode: ViewMode): (title: string)
    ensures title == DecimalText(DaysToShow(mode)) + "-Day Forecast"
  {
    match mode
    case Week => "7-Day Forecast"
    case Extended => "10-Day Forecast"
  }

  /** One row or tile of the list; `date` is the raw date text. */
  datatype DayEntry = DayEntry(date: string, weatherCode: int, tempMax: real, tempMin: real,
                               precipitation: real, windSpeed: real)

  /** The value sequences are at least as long as the date sequence. */
  predicate ParallelDaily(d: DailySeries) {
    |d.weatherCode| >= |d.time| && |d.temperature2mMax| >= |d.time| && |d.temperature2mMin| >= |d.time|
    && |d.precipitation| >= |d.time| && |d.windSpeed10mMax| >= |d.time|
  }

  /** `time.slice(0, daysToShow)` mapped to entries that pair every daily
      sequence at the same index. */
  function NextDays(d: DailySeries, mode: ViewMode): (r: seq<DayEntry>)
    requires ParallelDaily(d)
    ensures |r| == MinInt(DaysToShow(mode), |d.time|)
    ensures forall i :: 0 <= i < |r| ==>
      r[i] == DayEntry(d.time[i], d.weatherCode[i], d.temperature2mMax[i], d.temperature2mMin[i],
                       d.precipitation[i], d.windSpeed10mMax[i])
  {
    var times := Slice(d.time, 0, DaysToShow(mode));
    seq(|times|, i requires 0 <= i < |times| =>
      DayEntry(times[i], d.weatherCode[i], d.temperature2mMax[i], d.temperature2mMin[i],
               d.precipitation[i], d.windSpeed10mMax[i]))
  }

  /** Switching to the extended view only appends days: the week list is a
      prefix of the extended one. */
  lemma WeekIsPrefixOfExtended(d: DailySeries)
    requires ParallelDaily(d)
    ensures NextDays(d, Week) <= NextDays(d, Extended)
    ensures |NextDays(d, Extended)| - |NextDays(d, Week)| <= 3
  {
    var w := NextDays(d, Week);
    var e := NextDays(d, Extended);
    assert w == e[..|w|];
  }

  /** A calendar day as the local-time getters report it. */
  datatype CalendarDate = CalendarDate(year: int, month: int, day: int)

  /** `isToday`: day of month, month and year all agree. */
  predicate IsToday(date: CalendarDate, today: CalendarDate)
    ensures IsToday(date, today) <==> date == today
  {
    date.day == today.day && date.month == today.month && date.year == today.year
  }

  /** Floors of the range bar, in percent. */
  function BarFloor(mode: ViewMode): real {
    if mode == Week then 10.0 else 20.0
  }

  /** The bar's width in percent: the day's range as a share of 30 degrees,
      but never below the view's floor. */
  function BarWidth(mode: ViewMode, tempMax: real, tempMin: real): (w: real)
    ensures w >= BarFloor(mode)
    ensures w >= (tempMax - tempMin) / 30.0 * 100.0
    ensures w == BarFloor(mode) || w == (tempMax - tempMin) / 30.0 * 100.0
  {
    Max(BarFloor(mode), (tempMax - tempMin) / 30.0 * 100.0)
  }

  /** A wider range never gives a narrower bar, the extended bar is never
      narrower than the week bar, and a range of 6 degrees or more shows the
      same width in both views. */
  lemma BarWidthOrder(mode: ViewMode, max1: real, min1: real, max2: real, min2: real)
    ensures max1 - min1 <= max2 - min2 ==> BarWidth(mode, max1, min1) <= BarWidth(mode, max2, min2)
    ensures BarWidth(Week, max1, min1) <= BarWidth(Extended, max1, min1)
    ensures max1 - min1 >= 6.0 ==> BarWidth(Week, max1, min1) == BarWidth(Extended, max1, min1)
  {
  }

  /** In either view, day i shows a precipitation line exactly when the
      series has a positive amount for day i. */
  lemma DailyPrecipitationShownOnlyWhenWet(d: DailySeries, mode: ViewMode, i: nat)
    requires ParallelDaily(d) && i < |NextDays(d, mode)|
    ensures i < |d.precipitation|
    ensures ShowsPrecipitation(NextDays(d, mode)[i].precipitation) <==> d.precipitation[i] > 0.0
  {
  }
}
