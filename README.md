# Weather dashboard core, modelled in Dafny

This project models the decision logic of a client-side weather dashboard in Dafny.

- **Where the forecast comes from.** It comes from the Open-Meteo forecast and air-quality services.
- **How places are found.** They are found by a geocoding search.
- **How the current place is named.** By reverse geocoding.

The model covers what the page decides around those services:

- **Location search.** The search results are gated, ranked and truncated.
- **Weather codes and mapping.** WMO weather-interpretation codes are looked up by day or night, and the service's answer is mapped into the page's weather record.
- **Favourites.** The favourites list is kept most-recent-first and keyed by coordinates. It appears in two copies: a component and a hook.
- **Current conditions.** The numeric banding on the current-conditions card: AQI categories, UV advice, wind arrow, compass point and Fahrenheit.
- **Choosing a location.** The order in which the page picks a location on first load, and what the two other triggers do: selecting a search result and the "Current" button.
- **Forecast windows.** The windows over the hourly and daily series.
- **Theme.** The light/dark theme hook.

Network answers, geolocation outcomes and the clock are parameters. Each trigger runs as one sequential step.

Modules, one per file:

- `Wrappers` (`wrappers.dfy`): `Option`.
- `JsSemantics` (`js_semantics.dfy`): the JavaScript operators the source relies on, written out:
  - truncating `%` on reals (`Rem360`) and on integers (`RemInt`);
  - `Math.round` as `floor(x + 0.5)`;
  - `slice` with clamped bounds;
  - `startsWith`;
  - ASCII `toLowerCase`;
  - string truthiness.
- `WeatherLib` (`weather_lib.dfy`): `client/lib/weather.ts`. The in-place `sort` is modelled as a stable insertion sort on a rank key (exactness class, then population). `CompareByRank` proves that this order is the source's comparator.
- `Favorites` (`favorites.dfy`): `client/components/weather/FavoriteLocations.tsx`.
  - The list operations are pure functions.
  - The component `FavoriteLocationsComponent` and the hook `FavoritesHook` are classes. Each holds the `favorites` sequence and the storage map, and every method reassigns both.
  - The ghost predicate `Persisted()` says that what storage would restore is the in-memory list.
- `CurrentWeather` (`current_weather.dfy`): `client/components/weather/CurrentWeather.tsx`. The AQI and UV if-chains are proved equal to a breakpoint-count reference, and that reference is proved monotone.
- `IndexPage` (`location_resolver.dfy`): `client/pages/Index.tsx`. The class `Dashboard` holds `weather`, `location`, `cityName`, `loading`, `error` and the storage map. Its methods follow the source's branches step by step. They are proved against the pure functions `ResolveInitialCoord`, `StorageAfterLoad` and `CityName`.
- `HourlyForecast` (`hourly_forecast.dfy`): `client/components/weather/HourlyForecast.tsx`. The `findIndex` search is a loop with invariants. The `currentHourIndex` state lives in the class `HourlyForecastView`.
- `DailyForecast` (`daily_forecast.dfy`): `client/components/weather/DailyForecast.tsx`. The view mode is an input.
- `Theme` (`theme.dfy`): `client/hooks/use-theme.ts`. The class `ThemeHook` holds `theme`, `mounted`, the root element's class set and storage.

Storage is a map from key to an already-decoded value. Text that `JSON.parse` rejects is a separate constructor (`Malformed` or `Unreadable`).

Where the source code and its design description disagree, the model follows the code:

- The "userLocation" cache record holds only latitude, longitude and timestamp.
- Reverse geocoding is attempted for a cached coordinate, for a fresh fix and for Delhi alike.
- The first load writes the cache right after a successful fix, before the weather fetch. The "Current" button writes it only after its weather fetch succeeds.
- Selecting a search result never touches the cache.

## Model

| member | source | states |
|---|---|---|
| WeatherLib.DisplayName | client/components/weather/FavoriteLocations.tsx:70 | "name, admin1" when admin1 is present and non-empty, otherwise just the name |
| WeatherLib.GetWeatherDescription | client/lib/weather.ts:109-118 | known codes come from the day table when `isDay` and from the night table otherwise; any other code gives {"Unknown", "🌍"} |
| WeatherLib.DescriptionIgnoresDaylight | client/lib/weather.ts:55-107 | both tables cover exactly the same codes, and the description never depends on `isDay` |
| WeatherLib.NightIconsDiffer | client/lib/weather.ts:55-107 | the icons do differ by day and night (codes 0 and 2) |
| WeatherLib.IsDaytime | client/lib/weather.ts:120-128 | with both times parseable, true iff sunrise <= t < sunset; an unparseable time makes it false |
| WeatherLib.DaytimeInterval | client/lib/weather.ts:127 | sunrise itself is day, sunset itself is night, and an empty or inverted interval has no daytime |
| WeatherLib.FirstOrEmpty | client/lib/weather.ts:181-182 | the first daily entry, or "" when the list is empty |
| WeatherLib.ToWeatherData | client/lib/weather.ts:178-221 | `isDay` iff `is_day == 1`; `aqi` is `us_aqi`, or 0 when absent; sunrise and sunset come from the first daily entry or are ""; every other field is copied to its counterpart |
| WeatherLib.GetWeatherData | client/lib/weather.ts:160-225 | a record exists iff both responses arrived, and it is exactly `ToWeatherData` of the two, so the `isDay`, `aqi` and sunrise/sunset defaults all apply |
| WeatherLib.Compare | client/lib/weather.ts:143-151 | an exact (case-insensitive) match sorts before a non-exact one; within a class the result is the population difference b - a, with a missing population counted as 0 |
| WeatherLib.CompareByRank | client/lib/weather.ts:143-151 | the comparator's "a before b" is exactly the lexicographic order on (exactness, -population) |
| WeatherLib.InsertByRank | client/lib/weather.ts:143 | inserting into a sorted list keeps it sorted and adds exactly the one element |
| WeatherLib.SortByRank | client/lib/weather.ts:143 | the sort is a permutation and its output is sorted by rank |
| WeatherLib.SortByRelevance | client/lib/weather.ts:143-151 | a permutation of the results in which every earlier element precedes every later one under the comparator |
| WeatherLib.SearchLocations | client/lib/weather.ts:130-158 | a query shorter than 2 characters, a failed request or a missing `results` field gives []; never more than 50 results |
| WeatherLib.PrecedesMeans | client/lib/weather.ts:144-150 | if a precedes b, then b exact implies a exact, and within a class a has at least b's population |
| WeatherLib.SearchIsSortedPrefix | client/lib/weather.ts:143-153 | a successful search returns the first min(50, n) entries of the sorted results |
| WeatherLib.SearchKeepsResults | client/lib/weather.ts:140-153 | min(50, n) results, all drawn from the service's results, and all of them when n <= 50 |
| WeatherLib.SearchOrder | client/lib/weather.ts:143-151 | exact matches come before all others, and population is non-increasing within each class |
| WeatherLib.SearchDropsOnlyLowerRanked | client/lib/weather.ts:143-153 | every result dropped by the truncation ranks no higher than every result returned |
| Favorites.HasCoords | client/components/weather/FavoriteLocations.tsx:73-76 | true iff some entry has the same latitude and longitude |
| Favorites.HasLabel | client/components/weather/FavoriteLocations.tsx:68-72 | true iff some entry's "name" or "name, admin1" equals the text |
| Favorites.Without | client/components/weather/FavoriteLocations.tsx:56-62 | removes every entry with the location's coordinates, keeps every other entry with its multiplicity, and keeps their relative order |
| Favorites.WithoutKeepsNoDuplicates | client/components/weather/FavoriteLocations.tsx:56-62 | removal preserves "no two entries share coordinates" |
| Favorites.WithoutAbsent | client/components/weather/FavoriteLocations.tsx:56-62 | removing an absent location leaves the list unchanged |
| Favorites.WithoutIdempotent | client/components/weather/FavoriteLocations.tsx:56-62 | removing twice equals removing once |
| Favorites.Added | client/components/weather/FavoriteLocations.tsx:35-50 | the new entry with its `addedAt` is first and is the only one with those coordinates; the rest are the old entries in their old order, and every old entry at other coordinates is kept |
| Favorites.AddedKeepsNoDuplicates | client/components/weather/FavoriteLocations.tsx:41-50 | adding preserves "no two entries share coordinates" |
| Favorites.Toggled | client/components/weather/FavoriteLocations.tsx:79-85 | membership of the location flips |
| Favorites.HookToggleAgrees | client/components/weather/FavoriteLocations.tsx:152-169 | the hook's toggle, which prepends without filtering, always produces the component's list |
| Favorites.ToggleTwiceFromAbsent | client/components/weather/FavoriteLocations.tsx:79-85 | toggling an absent location twice restores the original list, in both copies |
| Favorites.ToggleTwiceFromPresent | client/components/weather/FavoriteLocations.tsx:79-85 | toggling a present location twice moves it to the front with the new time |
| Favorites.ToggleKeepsNoDuplicates | client/components/weather/FavoriteLocations.tsx:152-169 | both toggles preserve "no two entries share coordinates" |
| Favorites.Restore | client/components/weather/FavoriteLocations.tsx:23-33 | the stored list when it parses; [] when it is missing or malformed |
| Favorites.FavoriteLocationsComponent.Mount | client/components/weather/FavoriteLocations.tsx:19-33 | the list is what storage restores, and the persisted snapshot agrees with it |
| Favorites.FavoriteLocationsComponent.Save | client/components/weather/FavoriteLocations.tsx:52-53 | the list and the stored snapshot both become the new list |
| Favorites.FavoriteLocationsComponent.AddFavorite | client/components/weather/FavoriteLocations.tsx:35-54 | the list becomes `Added(old, loc, now)` and is written to "favoriteLocations"; the snapshot still agrees and no-duplicates is preserved |
| Favorites.FavoriteLocationsComponent.RemoveFavorite | client/components/weather/FavoriteLocations.tsx:56-65 | the list becomes `Without(old, loc)`, the location is no longer a favourite, the list is written to storage and no-duplicates is preserved |
| Favorites.FavoriteLocationsComponent.IsFavorite | client/components/weather/FavoriteLocations.tsx:73-76 | true iff some entry has the location's coordinates |
| Favorites.FavoriteLocationsComponent.IsFavoriteLabel | client/components/weather/FavoriteLocations.tsx:67-72 | true iff some entry's display name equals the text |
| Favorites.FavoriteLocationsComponent.ToggleFavorite | client/components/weather/FavoriteLocations.tsx:79-85 | the list becomes `Toggled(old, loc, now)` and `IsFavorite` flips; storage and the invariants follow |
| Favorites.FavoritesHook.Mount | client/components/weather/FavoriteLocations.tsx:137-150 | the list is what storage restores, and the persisted snapshot agrees with it |
| Favorites.FavoritesHook.ToggleFavorite | client/components/weather/FavoriteLocations.tsx:152-173 | the list becomes the hook's toggle of the old list and `IsFavorite` flips; the list is written to storage and no-duplicates is preserved |
| Favorites.FavoritesHook.IsFavorite | client/components/weather/FavoriteLocations.tsx:175-180 | true iff some entry has the location's coordinates |
| CurrentWeather.CelsiusToFahrenheit | client/components/weather/CurrentWeather.tsx:20-22 | (f - 32) * 5 == c * 9 |
| CurrentWeather.FahrenheitScale | client/components/weather/CurrentWeather.tsx:20-22 | 0 maps to 32 and 100 to 212, and the conversion is strictly increasing |
| CurrentWeather.CountsMonotone | client/components/weather/CurrentWeather.tsx:24-80 | a larger value passes at least as many breakpoints |
| CurrentWeather.AqiCategory | client/components/weather/CurrentWeather.tsx:24-31 | the category index is below 6 |
| CurrentWeather.AqiCategoryUnfolded | client/components/weather/CurrentWeather.tsx:24-31 | the category is 0..5 for <=50, <=100, <=150, <=200, <=300 and above |
| CurrentWeather.GetAQILabel | client/components/weather/CurrentWeather.tsx:24-31 | the label of the value's category: Good, Moderate, Unhealthy for Sensitive Groups, Unhealthy, Very Unhealthy, Hazardous |
| CurrentWeather.GetAQIColor | client/components/weather/CurrentWeather.tsx:33-40 | the colour of the value's category, with the same breakpoints as the label |
| CurrentWeather.AqiLabelMatchesColor | client/components/weather/CurrentWeather.tsx:24-40 | two readings share a label iff they share a colour, iff they share a category |
| CurrentWeather.AqiCategoryMonotone | client/components/weather/CurrentWeather.tsx:24-31 | a higher AQI never gets a milder category |
| CurrentWeather.AqiExamples | client/components/weather/CurrentWeather.tsx:24-31 | 42 and 50 are Good, 151 is Unhealthy and 301 is Hazardous |
| CurrentWeather.UvLevel | client/components/weather/CurrentWeather.tsx:42-80 | the level index is below 5 |
| CurrentWeather.UvLevelUnfolded | client/components/weather/CurrentWeather.tsx:42-80 | the level is 0..4 for <3, <6, <8, <11 and above |
| CurrentWeather.GetUVRecommendation | client/components/weather/CurrentWeather.tsx:42-80 | the level, advice and colour of the index's band (Low, Moderate, High, Very High, Extreme) |
| CurrentWeather.UvLevelMonotone | client/components/weather/CurrentWeather.tsx:42-80 | the level never decreases as the index grows |
| CurrentWeather.UvExamples | client/components/weather/CurrentWeather.tsx:42-80 | 2.5 is Low, 3 is Moderate, 9 is Very High and 11 is Extreme |
| CurrentWeather.NormalizeDegrees | client/components/weather/CurrentWeather.tsx:83 | `((d % 360) + 360) % 360` lies in [0, 360) and equals the floored remainder d - 360*floor(d/360), negative d included |
| CurrentWeather.NormalizeIsFlooredRemainder | client/components/weather/CurrentWeather.tsx:83 | the double truncated remainder equals the floored remainder |
| CurrentWeather.NormalizePeriodic | client/components/weather/CurrentWeather.tsx:83 | d and d + 360k normalise alike for every integer k |
| CurrentWeather.GetWindDirectionArrow | client/components/weather/CurrentWeather.tsx:82-93 | the arrow of the 45-degree sector centred on a multiple of 45 that contains the normalised direction, "↓" for [337.5, 360) ∪ [0, 22.5) |
| CurrentWeather.ArrowPeriodic | client/components/weather/CurrentWeather.tsx:82-93 | d and d + 360k give the same arrow |
| CurrentWeather.ArrowExamples | client/components/weather/CurrentWeather.tsx:85-92 | 0 and 360 both give "↓", 90 gives "←", 270 gives "→", and -90 equals 270 |
| CurrentWeather.CompassIndex | client/components/weather/CurrentWeather.tsx:130 | `Math.round(d / 22.5) % 16` lies in (-16, 16), and in [0, 16) for d >= 0 |
| CurrentWeather.GetWindDirection | client/components/weather/CurrentWeather.tsx:111-131 | a compass name exists iff the index is non-negative (always for d >= 0) and is `directions[index]`; otherwise undefined |
| CurrentWeather.CompassSector | client/components/weather/CurrentWeather.tsx:130 | for d in [0, 360) index i names the 22.5-degree sector centred on 22.5*i, with "N" taking both ends |
| CurrentWeather.CompassPeriodic | client/components/weather/CurrentWeather.tsx:130 | adding 360 to a non-negative direction keeps its index |
| CurrentWeather.CompassExamples | client/components/weather/CurrentWeather.tsx:111-131 | 0 and 360 give "N", 90 gives "E" and 270 gives "W" |
| CurrentWeather.FormatTime | client/components/weather/CurrentWeather.tsx:95-102 | "--:--" for an empty string, otherwise the localized time |
| IndexPage.StoredCoord | client/pages/Index.tsx:89-97 | a coordinate exists iff the cached record parses |
| IndexPage.FreshCoord | client/pages/Index.tsx:30-43 | a cached coordinate is adopted iff the record parses and now - timestamp < 7*24*60*60*1000 |
| IndexPage.ResolveInitialCoord | client/pages/Index.tsx:30-99 | a fresh cache wins; otherwise a geolocation fix, when asked for, wins; a stale readable cache is used only after a failed fix; the result is Delhi (None) iff there is no fresh cache and geolocation is unsupported, or it failed with no readable cache |
| IndexPage.GeolocationOnlyWhenRequested | client/pages/Index.tsx:47 | when geolocation is unsupported or a fresh cache was adopted, its outcome cannot affect the result |
| IndexPage.StaleCacheOnlyAfterFailedFix | client/pages/Index.tsx:86-97 | with no fresh cache, the stale cached coordinate is used iff geolocation is supported and fails (or returns that same coordinate) |
| IndexPage.LoadFallsBackToStaleCache | client/pages/Index.tsx:86-97 | a stale readable cache plus a failed fix still yields the cached coordinate |
| IndexPage.StorageAfterLoad | client/pages/Index.tsx:30-85 | other keys are untouched; an unreadable record is removed; a fix, when asked for, is written with the current time; the key never holds an unreadable record afterwards |
| IndexPage.FirstTruthy | client/pages/Index.tsx:116-119 | the first non-empty candidate, or none when every candidate is missing or empty |
| IndexPage.FirstTruthyOfThree | client/pages/Index.tsx:116-119 | the `||` chain over three candidates, evaluated |
| IndexPage.CityName | client/pages/Index.tsx:109-127 | the first non-empty of city, town and county, else the default; a failed lookup keeps the default |
| IndexPage.CityNamePrecedence | client/pages/Index.tsx:116-123 | city beats town, town beats county, and all-missing keeps the default |
| IndexPage.Dashboard.constructor | client/pages/Index.tsx:14-18 | no weather, location or error; the name "Loading..."; loading |
| IndexPage.Dashboard.LoadWeatherForLocation | client/pages/Index.tsx:102-142 | a successful fetch sets the weather and the geocoded or default name and clears the error; a failed fetch sets "Failed to load weather data" and leaves the weather and name unchanged |
| IndexPage.Dashboard.LoadInitialLocation | client/pages/Index.tsx:24-155 | fetches for the resolved coordinate, or Delhi; the default name is "Your Location" or "Delhi"; storage becomes `StorageAfterLoad`; error handling follows `LoadWeatherForLocation`; loading ends false |
| IndexPage.Dashboard.HandleLocationSelect | client/pages/Index.tsx:164-186 | the location and "name, admin1" are set before the fetch; success sets the weather, failure sets "Failed to load weather for selected location"; storage is untouched and loading ends false |
| IndexPage.Dashboard.HandleUseCurrentLocation | client/pages/Index.tsx:188-276 | unsupported geolocation only sets "Geolocation is not supported"; a fix whose fetch succeeds sets the weather and geocoded name and caches the fix; any other outcome requests Delhi, which on success shows "Delhi" with no error and on failure shows "Failed to load weather data"; loading ends false |
| HourlyForecast.BeforeFirstColon | client/components/weather/HourlyForecast.tsx:13 | the longest colon-free prefix: the text stops right before the first colon, or at the end |
| HourlyForecast.BeforeFirstColonAt | client/components/weather/HourlyForecast.tsx:13 | when the first colon is at n, the cut is exactly s[..n] |
| HourlyForecast.HourKey | client/components/weather/HourlyForecast.tsx:13 | the clock text up to its first colon, followed by ":00" |
| HourlyForecast.HourKeyExample | client/components/weather/HourlyForecast.tsx:13 | "2024-01-15T14:35:12.000Z" keys "2024-01-15T14:00" |
| HourlyForecast.FindHourIndex | client/components/weather/HourlyForecast.tsx:14-16 | the first index whose time starts with the key, or -1 iff there is none |
| HourlyForecast.NextHours | client/components/weather/HourlyForecast.tsx:20-28 | min(24, len - i) cards, where card k takes time, temperature, code, precipitation and wind from index i + k |
| HourlyForecast.WindowIsContiguous | client/components/weather/HourlyForecast.tsx:20-21 | at most 24 cards, exactly 24 when there is room, and their times are the contiguous run `time[i .. i+|w|)` |
| HourlyForecast.PrecipitationShownOnlyWhenWet | client/components/weather/HourlyForecast.tsx:57-61 | card k shows its precipitation line iff the series amount at hour start + k is positive |
| HourlyForecast.HourlyForecastView.constructor | client/components/weather/HourlyForecast.tsx:9 | the index starts at 0 |
| HourlyForecast.HourlyForecastView.SyncCurrentHour | client/components/weather/HourlyForecast.tsx:11-18 | the index becomes the first time in the current hour, or 0 when no time matches |
| HourlyForecast.HourlyForecastView.Window | client/components/weather/HourlyForecast.tsx:20-28 | the shown strip has at most 24 cards |
| HourlyForecast.ShowCurrentHour | client/components/weather/HourlyForecast.tsx:11-28 | after a sync that finds the current hour, the strip is non-empty and its first card is in that hour |
| DailyForecast.InitialViewIsWeek | client/components/weather/DailyForecast.tsx:11-13 | the list opens in week mode: seven days under "7-Day Forecast" |
| DailyForecast.DaysToShow | client/components/weather/DailyForecast.tsx:12 | 7 exactly in week mode, 10 exactly in extended mode |
| DailyForecast.Heading | client/components/weather/DailyForecast.tsx:35 | the heading announces the number of days shown: "7-Day Forecast" or "10-Day Forecast" |
| DailyForecast.NextDays | client/components/weather/DailyForecast.tsx:13-20 | min(daysToShow, len) entries, where entry i pairs every daily sequence at index i |
| DailyForecast.WeekIsPrefixOfExtended | client/components/weather/DailyForecast.tsx:12-20 | the week list is a prefix of the extended list, which adds at most 3 days |
| DailyForecast.DailyPrecipitationShownOnlyWhenWet | client/components/weather/DailyForecast.tsx:120-122 | in either view (the extended view repeats the guard at lines 190-194), day i shows its precipitation line iff the series amount for day i is positive |
| DailyForecast.IsToday | client/components/weather/DailyForecast.tsx:22-29 | true iff day, month and year all equal today's |
| DailyForecast.BarWidth | client/components/weather/DailyForecast.tsx:105-109 | at least the view's floor (10 for the week view, 20 for the extended view), at least (max - min)/30*100, and equal to one of the two |
| DailyForecast.BarWidthOrder | client/components/weather/DailyForecast.tsx:180-183 | a wider range never narrows the bar; the extended bar is never narrower than the week bar; the two agree from a 6-degree range up |
| Theme.InitialTheme | client/hooks/use-theme.ts:11-23 | a non-empty saved value is used as it is; otherwise "dark" iff the system prefers dark, else "light" |
| Theme.Toggled | client/hooks/use-theme.ts:37-41 | always "light" or "dark"; "dark" iff the input was "light"; a valid theme always changes |
| Theme.ToggleTwice | client/hooks/use-theme.ts:37-41 | two toggles restore "light" or "dark"; from any other saved string they end on "dark" |
| Theme.ThemeHook.constructor | client/hooks/use-theme.ts:6-7 | theme "light", not mounted |
| Theme.ThemeHook.ApplyTheme | client/hooks/use-theme.ts:27-35 | "dark" is added to the root classes for the dark theme and removed otherwise, and the theme is stored under "weatherAppTheme" |
| Theme.ThemeHook.Mount | client/hooks/use-theme.ts:9-25 | the theme is `InitialTheme(saved, prefersDark)`; mounted; the root class and storage agree with the theme; other classes and keys are untouched |
| Theme.ThemeHook.ToggleTheme | client/hooks/use-theme.ts:37-41 | the theme becomes `Toggled(old)`, root class and storage agree with it, only "weatherAppTheme" is written, other root classes are kept, and `mounted` is unchanged |
| Theme.ToggleTwiceRestores | client/hooks/use-theme.ts:37-41 | toggling twice from "light" or "dark" returns to it, with class and storage in agreement, other storage keys and root classes untouched |

## Left out

- HTTP requests (Open-Meteo forecast, air quality and geocoding; Nominatim reverse geocoding) and their timeouts: their outcomes are parameters (`Option` values, `GeoOutcome`).
- The geolocation `Promise`/`setTimeout` race, the `isMounted` unmount guard and overlapping triggers: each trigger is one sequential step.
- Every trigger reads the clock once (`now`). The source reads it separately for the cache check and for the cache write.
- `JSON.parse`/`stringify`, `Date` parsing, `toISOString`, `toLocaleTimeString`, `toLocaleDateString` and `toFixed`:
  - storage holds decoded values;
  - times are integer milliseconds or the ISO text;
  - the localized time is an input of `FormatTime`;
  - the rounding of the wind direction before the compass lookup is taken as given.
- A cached record that parses but lacks fields (where the JavaScript would see `undefined`) is not distinguished from a well-formed one.
- IEEE-754 arithmetic: temperatures, AQI, UV and degrees are `real`, and coordinates are compared as exact reals.
- Rendering, the skeleton components and `client/components/weather/LocationSearch.tsx` (its only decision, the 2-character gate, is `WeatherLib.SearchLocations`). `console.error` logging.
- `window.matchMedia` and `document.documentElement`: the system preference is a boolean, and the root class list is a set.
- Case-insensitive matching lower-cases ASCII letters only. Query length counts characters, not UTF-16 code units.
- Time zones: `SyncCurrentHour` takes the UTC ISO clock text, as the source does. The hourly times are in the location's own zone, so away from UTC the window starts at the UTC hour. The model keeps this and does not relate the two zones.
- WeatherLib.SortByRelevance: states a permutation ordered by the comparator, but not that equal-ranked results keep their service order (the insertion sort is stable, but no lemma states it).
- WeatherLib.SearchLocations: the permutation-and-truncation property is stated in the lemmas `SearchKeepsResults`, `SearchIsSortedPrefix` and `SearchDropsOnlyLowerRanked`, not in the function's own contract.
- Favorites: the component and the hook are modelled as separate objects, each with its own storage map. A write by one is not seen by the other until it mounts again.
- HourlyForecast.NextHours and DailyForecast.NextDays require each value sequence to be at least as long as the time sequence. In JavaScript a shorter one yields `undefined` entries, which the model does not represent.
