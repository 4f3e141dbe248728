/** The hourly strip: the index of the current hour in the forecast's time
    series, and the 24-hour window that starts there, zipped from the
    parallel hourly sequences. */
module HourlyForecast {
  import opened JsSemantics
  import opened WeatherLib

  const WindowHours := 24

  /** `s.split(":")[0]`: everything before the first colon, or all of `s`. */
  function BeforeFirstColon(s: string): (p: string)
    ensures |p| <= |s| && p == s[..|p|]
    ensures ':' !in p
    ensures |p| < |s| ==> s[|p|] == ':'
  {
    if s == [] || s[0] == ':' then []
    else [s[0]] + BeforeFirstColon(s[1..])
  }

  /** The key an hourly time must start with to be "now": the clock's ISO
      text cut at its first colon, then ":00". */
  function HourKey(isoNow: string): (key: string)
    ensures |key| == |BeforeFirstColon(isoNow)| + 3
    ensures key[..|key| - 3] == isoNow[..|key| - 3]
    ensures ':' !in key[..|key| - 3] && key[|key| - 3..] == ":00"
  {
    BeforeFirstColon(isoNow) + ":00"
  }

  /** The cut happens exactly at the first colon. */
  lemma {:induction false} BeforeFirstColonAt(s: string, n: nat)
    requires n < |s| && s[n] == ':'
    requires forall i :: 0 <= i < n ==> s[i] != ':'
    ensures BeforeFirstColon(s) == s[..n]
    decreases n
  {
    if n > 0 {
      BeforeFirstColonAt(s[1..], n - 1);
      assert s[..n] == [s[0]] + s[1..][..n - 1];
    }
  }

  /** A clock reading of 14:35 UTC keys the 14:00 slot of that day. */
  lemma HourKeyExample()
    ensures HourKey("2024-01-15T14:35:12.000Z") == "2024-01-15T14:00"
  {
    var s := "2024-01-15T14:35:12.000Z";
    assert s[..13] == "2024-01-15T14";
    BeforeFirstColonAt(s, 13);
  }

  /** `findIndex` over the hourly times: the first index whose time starts with `key`, or -1. */
  method FindHourIndex(times: seq<string>, key: string) returns (index: int)
    ensures -1 <= index < |times|
    ensures index >= 0 ==> StartsWith(times[index], key)
    ensures index >= 0 ==> forall j :: 0 <= j < index ==> !StartsWith(times[j], key)
    ensures index == -1 <==> forall j :: 0 <= j < |times| ==> !StartsWith(times[j], key)
  {
    index := 0;
    while index < |times|
      invariant 0 <= index <= |times|
      invariant forall j :: 0 <= j < index ==> !StartsWith(times[j], key)
    {
      if StartsWith(times[index], key) {
        return;
      }
      index := index + 1;
    }
    index := -1;
  }

  /** One card of the strip. */
  datatype HourEntry = HourEntry(time: string, temp: real, weatherCode: int, precipitation: real, windSpeed: real)

  /** The value sequences are at least as long as the time sequence. */
  predicate ParallelHourly(h: HourlySeries) {
    |h.temperature2m| >= |h.time| && |h.weatherCode| >= |h.time|
    && |h.precipitation| >= |h.time| && |h.windSpeed10m| >= |h.time|
  }

  /** `time.slice(start, start + 24)` mapped to cards whose values come from
      the same offset of each parallel sequence. */
  function NextHours(h: HourlySeries, start: nat): (r: seq<HourEntry>)
    requires ParallelHourly(h)
    ensures |r| == if start <= |h.time| then MinInt(WindowHours, |h.time| - start) else 0
    ensures forall k :: 0 <= k < |r| ==>
      (start + k < |h.time|
       && r[k] == HourEntry(h.time[start + k], h.temperature2m[start + k], h.weatherCode[start + k],
                            h.precipitation[start + k], h.windSpeed10m[start + k]))
  {
    var times := Slice(h.time, start, start + WindowHours);
    seq(|times|, k requires 0 <= k < |times| =>
      HourEntry(times[k], h.temperature2m[start + k], h.weatherCode[start + k],
                h.precipitation[start + k], h.windSpeed10m[start + k]))
  }

  /** The window never exceeds 24 cards, and its times are exactly a contiguous run of the series. */
  lemma WindowIsContiguous(h: HourlySeries, start: nat)
    requires ParallelHourly(h) && start <= |h.time|
    ensures var r := NextHours(h, start);
      |r| <= WindowHours && start + |r| <= |h.time|
      && (|h.time| - start >= WindowHours ==> |r| == WindowHours)
      && seq(|r|, k requires 0 <= k < |r| => r[k].time) == h.time[start..start + |r|]
  {
  }

  /** The render guard of a card's precipitation line (both forecast views use it). */
  predicate ShowsPrecipitation(amount: real) {
    amount > 0.0
  }

  /** Card k shows a precipitation line exactly when the series has a
      positive amount at hour start + k. */
  lemma PrecipitationShownOnlyWhenWet(h: HourlySeries, start: nat, k: nat)
    requires ParallelHourly(h) && k < |NextHours(h, start)|
    ensures start + k < |h.precipitation|
    ensures ShowsPrecipitation(NextHours(h, start)[k].precipitation) <==> h.precipitation[start + k] > 0.0
  {
  }

  class HourlyForecastView {
    var currentHourIndex: nat

    constructor ()
      ensures currentHourIndex == 0
    {
      currentHourIndex := 0;
    }

    /** The effect run when the hourly times change: point at the first time
        in the current hour, or at 0 when none is. */
    method SyncCurrentHour(hourly: HourlySeries, isoNow: string)
      modifies this
      ensures var key := HourKey(isoNow);
        (forall j :: 0 <= j < currentHourIndex && j < |hourly.time| ==> !StartsWith(hourly.time[j], key))
        && ((exists j :: 0 <= j < |hourly.time| && StartsWith(hourly.time[j], key)) ==>
              currentHourIndex < |hourly.time| && StartsWith(hourly.time[currentHourIndex], key))
        && ((forall j :: 0 <= j < |hourly.time| ==> !StartsWith(hourly.time[j], key)) ==> currentHourIndex == 0)
    {
      var index := FindHourIndex(hourly.time, HourKey(isoNow));
      currentHourIndex := if index >= 0 then index else 0;
    }

    /** The strip currently shown. */
    function Window(hourly: HourlySeries): (r: seq<HourEntry>)
      reads this
      requires ParallelHourly(hourly)
      ensures |r| <= WindowHours
    {
      NextHours(hourly, currentHourIndex)
    }
  }

  /** After a sync that found the current hour, the first card is that hour. */
  method ShowCurrentHour(view: HourlyForecastView, hourly: HourlySeries, isoNow: string)
    returns (strip: seq<HourEntry>)
    requires ParallelHourly(hourly)
    modifies view
    ensures (exists j :: 0 <= j < |hourly.time| && StartsWith(hourly.time[j], HourKey(isoNow))) ==>
      |strip| > 0 && StartsWith(strip[0].time, HourKey(isoNow))
    ensures strip == view.Window(hourly)
  {
    view.SyncCurrentHour(hourly, isoNow);
    strip := view.Window(hourly);
  }
}
