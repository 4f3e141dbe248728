/** The weather and location client: the WMO weather-code lookup, the
    day/night interval test, the mapping of the forecast and air-quality
    responses onto the dashboard's weather record, and the ranking of
    geocoding search results. The HTTP requests themselves are not modelled:
    what they return (or that they failed) is passed in. */
module WeatherLib {
  import opened Wrappers
  import opened JsSemantics

  // ---------------------------------------------------------------------------
  // Records

  /** A geocoding search result. Optional attributes are `None` when absent. */
  datatype LocationData = LocationData(
    id: int,
    name: string,
    latitude: real,
    longitude: real,
    elevation: Option<real>,
    featureCode: Option<string>,
    countryCode: Option<string>,
    timezone: Option<string>,
    population: Option<int>,
    country: Option<string>,
    admin1: Option<string>,
    admin2: Option<string>)

  /** Hourly series: parallel sequences, one entry per forecast hour. */
  datatype HourlySeries = HourlySeries(
    time: seq<string>,
    temperature2m: seq<real>,
    weatherCode: seq<int>,
    precipitation: seq<real>,
    windSpeed10m: seq<real>)

  /** Daily series: parallel sequences, one entry per forecast day. */
  datatype DailySeries = DailySeries(
    time: seq<string>,
    weatherCode: seq<int>,
    temperature2mMax: seq<real>,
    temperature2mMin: seq<real>,
    precipitation: seq<real>,
    windSpeed10mMax: seq<real>,
    sunrise: seq<string>,
    sunset: seq<string>)

  datatype CurrentConditions = CurrentConditions(
    temperature: real,
    windSpeed: real,
    windDirection: real,
    weatherCode: int,
    isDay: bool,
    relativeHumidity: real,
    apparentTemperature: real,
    pressureMsl: real,
    visibility: real,
    uvIndex: real,
    precipitation: real,
    aqi: real,
    sunrise: string,
    sunset: string)

  /** The weather snapshot the dashboard renders. */
  datatype WeatherData = WeatherData(
    current: CurrentConditions,
    hourly: HourlySeries,
    daily: DailySeries,
    timezone: string,
    latitude: real,
    longitude: real)

  /** The `current` block of the forecast response; `isDay` is the numeric
      `is_day` flag (0 or 1). */
  datatype CurrentReading = CurrentReading(
    temperature2m: real,
    relativeHumidity2m: real,
    apparentTemperature: real,
    weatherCode: int,
    windSpeed10m: real,
    windDirection10m: real,
    isDay: real,
    pressureMsl: real,
    visibility: real,
    uvIndex: real,
    precipitation: real)

  /** The decoded forecast response (its hourly and daily blocks already use
      the record's field names; `precipitation_sum` is `precipitation`). */
  datatype ForecastResponse = ForecastResponse(
    current: CurrentReading,
    hourly: HourlySeries,
    daily: DailySeries,
    timezone: string,
    latitude: real,
    longitude: real)

  /** The decoded air-quality response: `current.us_aqi`, absent or null as `None`. */
  datatype AqiResponse = AqiResponse(usAqi: Option<real>)

  /** The decoded geocoding search response: `results` may be missing. */
  datatype SearchResponse = SearchResponse(results: Option<seq<LocationData>>)

  /** "name" or, when the region is present and non-empty, "name, admin1": the
      label used for a selected location and for favourites. */
  function DisplayName(loc: LocationData): (s: string)
    ensures loc.admin1.Some? && Truthy(loc.admin1.value) ==> s == loc.name + ", " + loc.admin1.value
    ensures !(loc.admin1.Some? && Truthy(loc.admin1.value)) ==> s == loc.name
  {
    match loc.admin1
    case Some(region) => if Truthy(region) then loc.name + ", " + region else loc.name
    case None => loc.name
  }

  // ---------------------------------------------------------------------------
  // WMO weather interpretation codes

  datatype WeatherInfo = WeatherInfo(description: string, icon: string)

  const UnknownWeather := WeatherInfo("Unknown", "🌍")

  /** The day table: code to description and icon. */
  function WmoCodesDay(code: int): Option<WeatherInfo> {
    match code
    case 0 => Some(WeatherInfo("Clear sky", "☀️"))
    case 1 => Some(WeatherInfo("Mainly clear", "🌤️"))
    case 2 => Some(WeatherInfo("Partly cloudy", "⛅"))
    case 3 => Some(WeatherInfo("Overcast", "☁️"))
    case 45 => Some(WeatherInfo("Foggy", "🌫️"))
    case 48 => Some(WeatherInfo("Depositing rime fog", "🌫️"))
    case 51 => Some(WeatherInfo("Light drizzle", "🌦️"))
    case 53 => Some(WeatherInfo("Moderate drizzle", "🌧️"))
    case 55 => Some(WeatherInfo("Dense drizzle", "🌧️"))
    case 61 => Some(WeatherInfo("Slight rain", "🌧️"))
    case 63 => Some(WeatherInfo("Moderate rain", "🌧️"))
    case 65 => Some(WeatherInfo("Heavy rain", "⛈️"))
    case 71 => Some(WeatherInfo("Slight snow", "🌨️"))
    case 73 => Some(WeatherInfo("Moderate snow", "🌨️"))
    case 75 => Some(WeatherInfo("Heavy snow", "🌨️"))
    case 77 => Some(WeatherInfo("Snow grains", "🌨️"))
    case 80 => Some(WeatherInfo("Slight rain showers", "🌧️"))
    case 81 => Some(WeatherInfo("Moderate rain showers", "🌧️"))
    case 82 => Some(WeatherInfo("Violent rain showers", "⛈️"))
    case 85 => Some(WeatherInfo("Slight snow showers", "🌨️"))
    case 86 => Some(WeatherInfo("Heavy snow showers", "🌨️"))
    case 95 => Some(WeatherInfo("Thunderstorm", "⛈️"))
    case 96 => Some(WeatherInfo("Thunderstorm with slight hail", "⛈️"))
    case 99 => Some(WeatherInfo("Thunderstorm with heavy hail", "⛈️"))
    case _ => None
  }

  /** The night table: same codes, night icons. */
  function WmoCodesNight(code: int): Option<WeatherInfo> {
    match code
    case 0 => Some(WeatherInfo("Clear sky", "🌙"))
    case 1 => Some(WeatherInfo("Mainly clear", "🌙"))
    case 2 => Some(WeatherInfo("Partly cloudy", "🌤️"))
    case 3 => Some(WeatherInfo("Overcast", "☁️"))
    case 45 => Some(WeatherInfo("Foggy", "🌫️"))
    case 48 => Some(WeatherInfo("Depositing rime fog", "🌫️"))
    case 51 => Some(WeatherInfo("Light drizzle", "🌦️"))
    case 53 => Some(WeatherInfo("Moderate drizzle", "🌧️"))
    case 55 => Some(WeatherInfo("Dense drizzle", "🌧️"))
    case 61 => Some(WeatherInfo("Slight rain", "🌧️"))
    case 63 => Some(WeatherInfo("Moderate rain", "🌧️"))
    case 65 => Some(WeatherInfo("Heavy rain", "⛈️"))
    case 71 => Some(WeatherInfo("Slight snow", "🌨️"))
    case 73 => Some(WeatherInfo("Moderate snow", "🌨️"))
    case 75 => Some(WeatherInfo("Heavy snow", "🌨️"))
    case 77 => Some(WeatherInfo("Snow grains", "🌨️"))
    case 80 => Some(WeatherInfo("Slight rain showers", "🌧️"))
    case 81 => Some(WeatherInfo("Moderate rain showers", "🌧️"))
    case 82 => Some(WeatherInfo("Violent rain showers", "⛈️"))
    case 85 => Some(WeatherInfo("Slight snow showers", "🌨️"))
    case 86 => Some(WeatherInfo("Heavy snow showers", "🌨️"))
    case 95 => Some(WeatherInfo("Thunderstorm", "⛈️"))
    case 96 => Some(WeatherInfo("Thunderstorm with slight hail", "⛈️"))
    case 99 => Some(WeatherInfo("Thunderstorm with heavy hail", "⛈️"))
    case _ => None
  }

  /** The WMO codes the dashboard knows, listed independently of the tables. */
  const KnownCodes: set<int> :=
    {0, 1, 2, 3, 45, 48, 51, 53, 55, 61, 63, 65, 71, 73, 75, 77, 80, 81, 82, 85, 86, 95, 96, 99}

  /** Description and icon of a weather code: the day table when `isDay` (the
      source's default), the night table otherwise, "Unknown" for any other code. */
  function GetWeatherDescription(code: int, isDay: bool := true): (r: WeatherInfo)
    ensures code in KnownCodes && isDay ==> Some(r) == WmoCodesDay(code)
    ensures code in KnownCodes && !isDay ==> Some(r) == WmoCodesNight(code)
    ensures code !in KnownCodes ==> r == UnknownWeather
  {
    var entry := if isDay then WmoCodesDay(code) else WmoCodesNight(code);
    entry.GetOr(UnknownWeather)
  }

  /** Both tables cover exactly the known codes and agree on every description:
      only the icon can depend on the time of day. */
  lemma DescriptionIgnoresDaylight(code: int)
    ensures WmoCodesDay(code).Some? <==> code in KnownCodes
    ensures WmoCodesNight(code).Some? <==> code in KnownCodes
    ensures GetWeatherDescription(code, true).description == GetWeatherDescription(code, false).description
  {
  }

  /** The icons differ between day and night for clear and partly cloudy skies. */
  lemma NightIconsDiffer()
    ensures GetWeatherDescription(0, true).icon != GetWeatherDescription(0, false).icon
    ensures GetWeatherDescription(2, true).icon != GetWeatherDescription(2, false).icon
  {
  }

  // ---------------------------------------------------------------------------
  // Day time

  /** `checkTime >= sunrise && checkTime < sunset`, times in milliseconds; a
      sunrise or sunset string that does not parse is `None` (an invalid Date,
      against which every comparison is false). */
  function IsDaytime(checkTime: int, sunrise: Option<int>, sunset: Option<int>): (r: bool)
    ensures r ==> sunrise.Some? && sunset.Some?
    ensures sunrise.Some? && sunset.Some? ==> (r <==> sunrise.value <= checkTime < sunset.value)
  {
    match (sunrise, sunset)
    case (Some(rise), Some(down)) => checkTime >= rise && checkTime < down
    case _ => false
  }

  /** Daytime is a half-open interval: it contains sunrise, excludes sunset, and
      is empty when sunset does not come after sunrise. */
  lemma DaytimeInterval(rise: int, down: int, t: int)
    ensures rise < down ==> IsDaytime(rise, Some(rise), Some(down))
    ensures !IsDaytime(down, Some(rise), Some(down))
    ensures down <= rise ==> !IsDaytime(t, Some(rise), Some(down))
  {
  }

  // ---------------------------------------------------------------------------
  // Response to record

  /** The first entry of a day-string list, or "" when there is none (`list[0] || ""`). */
  function FirstOrEmpty(list: seq<string>): (s: string)
    ensures |list| > 0 ==> s == list[0]
    ensures |list| == 0 ==> s == ""
  {
    if |list| > 0 then list[0] else ""
  }

  /** The record built from both responses. */
  function ToWeatherData(w: ForecastResponse, a: AqiResponse): (r: WeatherData)
    ensures r.current.isDay <==> w.current.isDay == 1.0
    ensures a.usAqi.None? ==> r.current.aqi == 0.0
    ensures a.usAqi.Some? ==> r.current.aqi == a.usAqi.value
    ensures r.current.sunrise == (if |w.daily.sunrise| > 0 then w.daily.sunrise[0] else "")
    ensures r.current.sunset == (if |w.daily.sunset| > 0 then w.daily.sunset[0] else "")
    ensures r.current.temperature == w.current.temperature2m
    ensures r.current.windSpeed == w.current.windSpeed10m
    ensures r.current.windDirection == w.current.windDirection10m
    ensures r.current.weatherCode == w.current.weatherCode
    ensures r.current.relativeHumidity == w.current.relativeHumidity2m
    ensures r.current.apparentTemperature == w.current.apparentTemperature
    ensures r.current.pressureMsl == w.current.pressureMsl
    ensures r.current.visibility == w.current.visibility
    ensures r.current.uvIndex == w.current.uvIndex
    ensures r.current.precipitation == w.current.precipitation
    ensures r.hourly == w.hourly && r.daily == w.daily
    ensures r.timezone == w.timezone && r.latitude == w.latitude && r.longitude == w.longitude
  {
    var c := w.current;
    WeatherData(
      CurrentConditions(
        c.temperature2m, c.windSpeed10m, c.windDirection10m, c.weatherCode,
        c.isDay == 1.0,
        c.relativeHumidity2m, c.apparentTemperature, c.pressureMsl, c.visibility,
        c.uvIndex, c.precipitation,
        a.usAqi.GetOr(0.0),
        FirstOrEmpty(w.daily.sunrise), FirstOrEmpty(w.daily.sunset)),
      w.hourly, w.daily, w.timezone, w.latitude, w.longitude)
  }

  /** `getWeatherData`: both requests are made; if either failed (`None`) the
      call fails, otherwise the mapped record is returned. */
  function GetWeatherData(forecast: Option<ForecastResponse>, aqi: Option<AqiResponse>): (r: Option<WeatherData>)
    ensures r.Some? <==> forecast.Some? && aqi.Some?
    ensures r.Some? ==> r.value.current.isDay == (forecast.value.current.isDay == 1.0)
    ensures r.Some? ==> r.value.hourly == forecast.value.hourly && r.value.daily == forecast.value.daily
    ensures r.Some? ==> r.value == ToWeatherData(forecast.value, aqi.value)
  {
    match (forecast, aqi)
    case (Some(w), Some(a)) => Some(ToWeatherData(w, a))
    case _ => None
  }

  // ---------------------------------------------------------------------------
  // Location search

  /** Results returned at most. */
  const MaxResults := 50

  /** Shortest query that is sent to the geocoding service. */
  const MinQueryLength := 2

  /** `population || 0` */
  function PopulationOf(l: LocationData): int {
    l.population.GetOr(0)
  }

  /** The name equals the query, ignoring case. */
  predicate IsExact(l: LocationData, query: string) {
    ToLower(l.name) == ToLower(query)
  }

  /** The comparator handed to `sort`: negative when `a` goes first. */
  function Compare(a: LocationData, b: LocationData, query: string): (c: int)
    ensures IsExact(a, query) && !IsExact(b, query) ==> c < 0
    ensures !IsExact(a, query) && IsExact(b, query) ==> c > 0
    ensures IsExact(a, query) == IsExact(b, query) ==> c == PopulationOf(b) - PopulationOf(a)
  {
    var aExact := if IsExact(a, query) then 0 else 1;
    var bExact := if IsExact(b, query) then 0 else 1;
    if aExact != bExact then aExact - bExact else PopulationOf(b) - PopulationOf(a)
  }

  /** `a` may precede `b`: exact before inexact, then larger population first. */
  predicate Precedes(a: LocationData, b: LocationData, query: string) {
    Compare(a, b, query) <= 0
  }

  /** The comparator's verdict depends only on this pair: the exactness class
      (0 for an exact match, 1 otherwise) and the population. */
  datatype Rank = Rank(exactness: int, population: int)

  function RankOf(l: LocationData, query: string): Rank {
    Rank(if IsExact(l, query) then 0 else 1, PopulationOf(l))
  }

  /** Lexicographic order on ranks: lower class first, then larger population. */
  predicate RankLe(a: Rank, b: Rank) {
    a.exactness < b.exactness || (a.exactness == b.exactness && a.population >= b.population)
  }

  /** The source's comparator says "may go first" exactly when the ranks are in order. */
  lemma CompareByRank(a: LocationData, b: LocationData, query: string)
    ensures Precedes(a, b, query) <==> RankLe(RankOf(a, query), RankOf(b, query))
  {
  }

  /** Every pair of entries is in rank order. */
  ghost predicate SortedByRank<T>(s: seq<T>, rank: T -> Rank) {
    forall i, j :: 0 <= i < j < |s| ==> RankLe(rank(s[i]), rank(s[j]))
  }

  /** `y` may go in front of every entry of `s`. */
  ghost predicate RanksFirst<T>(y: T, s: seq<T>, rank: T -> Rank) {
    forall k :: 0 <= k < |s| ==> RankLe(rank(y), rank(s[k]))
  }

  lemma SortedCons<T>(y: T, s: seq<T>, rank: T -> Rank)
    requires RanksFirst(y, s, rank) && SortedByRank(s, rank)
    ensures SortedByRank([y] + s, rank)
  {
    var r := [y] + s;
    forall i, j | 0 <= i < j < |r| ensures RankLe(rank(r[i]), rank(r[j])) {
      assert r[j] == s[j - 1];
      if i > 0 {
        assert r[i] == s[i - 1];
      }
    }
  }

  /** Places `x` in front of the first entry it may precede, so that `x`
      stays ahead of the entries of equal rank that came after it. */
  function InsertByRank<T(!new)>(x: T, s: seq<T>, rank: T -> Rank): (r: seq<T>)
    requires SortedByRank(s, rank)
    ensures multiset(r) == multiset(s) + multiset{x}
    ensures SortedByRank(r, rank)
    ensures forall y :: RanksFirst(y, s, rank) && RankLe(rank(y), rank(x)) ==> RanksFirst(y, r, rank)
  {
    if s == [] then [x]
    else if RankLe(rank(x), rank(s[0])) then
      assert RanksFirst(x, s, rank) by {
        forall k | 0 <= k < |s| ensures RankLe(rank(x), rank(s[k])) {
          assert k == 0 || RankLe(rank(s[0]), rank(s[k]));
        }
      }
      SortedCons(x, s, rank);
      [x] + s
    else
      var s0, tail := s[0], s[1..];
      assert s == [s0] + tail;
      assert SortedByRank(tail, rank) by {
        forall i, j | 0 <= i < j < |tail| ensures RankLe(rank(tail[i]), rank(tail[j])) {
          assert tail[i] == s[i + 1] && tail[j] == s[j + 1];
        }
      }
      assert RanksFirst(s0, tail, rank) by {
        forall k | 0 <= k < |tail| ensures RankLe(rank(s0), rank(tail[k])) {
          assert tail[k] == s[k + 1];
        }
      }
      var rest := InsertByRank(x, tail, rank);
      SortedCons(s0, rest, rank);
      assert forall y :: RanksFirst(y, s, rank) ==> RanksFirst(y, tail, rank) by {
        forall y | RanksFirst(y, s, rank) ensures RanksFirst(y, tail, rank) {
          forall k | 0 <= k < |tail| ensures RankLe(rank(y), rank(tail[k])) {
            assert tail[k] == s[k + 1];
          }
        }
      }
      [s0] + rest
  }

  /** A stable sort by rank: an insertion sort from the back, each entry placed
      ahead of the equal-ranked entries that followed it. */
  function SortByRank<T(!new)>(s: seq<T>, rank: T -> Rank): (r: seq<T>)
    ensures multiset(r) == multiset(s)
    ensures SortedByRank(r, rank)
  {
    if s == [] then []
    else
      assert s == [s[0]] + s[1..];
      InsertByRank(s[0], SortByRank(s[1..], rank), rank)
  }

  /** The array as `sort` with the relevance comparator leaves it (`sort` is
      stable): a permutation in which every entry may precede every later one. */
  function SortByRelevance(s: seq<LocationData>, query: string): (r: seq<LocationData>)
    ensures multiset(r) == multiset(s)
    ensures forall i, j :: 0 <= i < j < |r| ==> Precedes(r[i], r[j], query)
  {
    var r := SortByRank(s, l => RankOf(l, query));
    assert forall i, j :: 0 <= i < j < |r| ==> RankLe(RankOf(r[i], query), RankOf(r[j], query));
    forall i, j | 0 <= i < j < |r| ensures Precedes(r[i], r[j], query) {
      CompareByRank(r[i], r[j], query);
    }
    r
  }

  /** `searchLocations(query)`, where `response` is what the geocoding request
      produced (`None` when the request or its JSON decoding threw). */
  function SearchLocations(query: string, response: Option<SearchResponse>): (r: seq<LocationData>)
    ensures |query| < MinQueryLength ==> r == []
    ensures response.None? || response.value.results.None? ==> r == []
    ensures |r| <= MaxResults
  {
    if |query| < MinQueryLength then []
    else match response
      case None => []
      case Some(data) =>
        match data.results
        case None => []
        case Some(results) => Slice(SortByRelevance(results, query), 0, MaxResults)
  }

  /** What `Precedes` means for the two criteria. */
  lemma PrecedesMeans(a: LocationData, b: LocationData, query: string)
    requires Precedes(a, b, query)
    ensures IsExact(b, query) ==> IsExact(a, query)
    ensures IsExact(a, query) == IsExact(b, query) ==> PopulationOf(a) >= PopulationOf(b)
  {
  }

  /** A successful search returns the first `min(50, n)` entries of the sorted results. */
  lemma SearchIsSortedPrefix(query: string, results: seq<LocationData>)
    requires |query| >= MinQueryLength
    ensures var sorted := SortByRelevance(results, query);
      && |sorted| == |results|
      && SearchLocations(query, Some(SearchResponse(Some(results)))) == sorted[..MinInt(MaxResults, |results|)]
  {
    var sorted := SortByRelevance(results, query);
    assert |multiset(sorted)| == |multiset(results)|;
  }

  /** A successful search returns at most 50 of the service's results, and all
      of them (reordered) when there are no more than 50. */
  lemma SearchKeepsResults(query: string, results: seq<LocationData>)
    requires |query| >= MinQueryLength
    ensures var r := SearchLocations(query, Some(SearchResponse(Some(results))));
      && |r| == MinInt(MaxResults, |results|)
      && multiset(r) <= multiset(results)
      && (|results| <= MaxResults ==> multiset(r) == multiset(results))
  {
    SearchIsSortedPrefix(query, results);
    var sorted := SortByRelevance(results, query);
    var n := MinInt(MaxResults, |results|);
    assert sorted == sorted[..n] + sorted[n..];
    assert multiset(sorted) == multiset(sorted[..n]) + multiset(sorted[n..]);
  }

  /** In the returned list every exact name match (ignoring case) comes before
      every other result, and within each group larger populations come first. */
  lemma SearchOrder(query: string, results: seq<LocationData>)
    requires |query| >= MinQueryLength
    ensures var r := SearchLocations(query, Some(SearchResponse(Some(results))));
      && (forall i, j :: 0 <= i < j < |r| && IsExact(r[j], query) ==> IsExact(r[i], query))
      && (forall i, j :: 0 <= i < j < |r| && IsExact(r[i], query) == IsExact(r[j], query)
            ==> PopulationOf(r[i]) >= PopulationOf(r[j]))
  {
    SearchIsSortedPrefix(query, results);
    var r := SearchLocations(query, Some(SearchResponse(Some(results))));
    forall i, j | 0 <= i < j < |r|
      ensures IsExact(r[j], query) ==> IsExact(r[i], query)
      ensures IsExact(r[i], query) == IsExact(r[j], query) ==> PopulationOf(r[i]) >= PopulationOf(r[j])
    {
      PrecedesMeans(r[i], r[j], query);
    }
  }

  /** Truncation keeps the best: every result left out may go after every result returned. */
  lemma SearchDropsOnlyLowerRanked(query: string, results: seq<LocationData>)
    requires |query| >= MinQueryLength
    ensures var r := SearchLocations(query, Some(SearchResponse(Some(results))));
      forall x, y :: x in multiset(results) - multiset(r) && y in r ==> Precedes(y, x, query)
  {
    SearchIsSortedPrefix(query, results);
    var sorted := SortByRelevance(results, query);
    var n := MinInt(MaxResults, |results|);
    var r := sorted[..n];
    assert sorted == r + sorted[n..];
    assert multiset(results) == multiset(r) + multiset(sorted[n..]);
    forall x, y | x in multiset(results) - multiset(r) && y in r
      ensures Precedes(y, x, query)
    {
      assert x in multiset(sorted[n..]);
      var j :| 0 <= j < |sorted| - n && sorted[n..][j] == x;
      var i :| 0 <= i < n && r[i] == y;
      assert sorted[i] == y && sorted[n + j] == x;
    }
  }
}
