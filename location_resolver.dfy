/** The dashboard page: which coordinate the first load uses (a cached fix
    under a week old, else a fresh geolocation fix, else any readable cached
    fix, else Delhi), what name it shows, and the state the three triggers
    (initial load, search selection, the "Current" button) leave behind.
    Geolocation, reverse geocoding and the weather fetch are outcomes passed
    in; each trigger runs as one sequential step. */
module IndexPage {
  import opened Wrappers
  import opened JsSemantics
  import opened WeatherLib

  datatype Coord = Coord(lat: real, lng: real)

  const Delhi := Coord(28.6139, 77.209)

  const UserLocationKey := "userLocation"

  const OneWeekMs := 7 * 24 * 60 * 60 * 1000

  /** What the "userLocation" entry decodes to: a record, or text that does not parse. */
  datatype StoredLocation = Record(coord: Coord, timestamp: int) | Unreadable

  /** How a geolocation request ends: a fix, or any error, denial or timeout. */
  datatype GeoOutcome = Fix(coord: Coord) | GeoFailed

  /** The `address` object of a reverse-geocoding answer. */
  datatype Address = Address(city: Option<string>, town: Option<string>, county: Option<string>)

  const YourLocation := "Your Location"
  const LoadFailed := "Failed to load weather data"
  const SelectFailed := "Failed to load weather for selected location"
  const GeoUnsupported := "Geolocation is not supported"

  // ---------------------------------------------------------------------------
  // Pure decisions

  function Lookup(storage: map<string, StoredLocation>): Option<StoredLocation> {
    if UserLocationKey in storage then Some(storage[UserLocationKey]) else None
  }

  /** A readable cached coordinate, whatever its age. */
  function StoredCoord(entry: Option<StoredLocation>): (r: Option<Coord>)
    ensures r.Some? <==> entry.Some? && entry.value.Record?
    ensures r.Some? ==> r.value == entry.value.coord
  {
    match entry
    case Some(Record(c, _)) => Some(c)
    case _ => None
  }

  /** A readable cached coordinate stored less than a week before `now`. */
  function FreshCoord(entry: Option<StoredLocation>, now: int): (r: Option<Coord>)
    ensures r.Some? <==> StoredCoord(entry).Some? && now - entry.value.timestamp < OneWeekMs
    ensures r.Some? ==> r == StoredCoord(entry)
  {
    match entry
    case Some(Record(c, ts)) => if now - ts < OneWeekMs then Some(c) else None
    case _ => None
  }

  /** Geolocation is asked for only when supported and no fresh cached
      coordinate was adopted. */
  predicate RequestsGeolocation(entry: Option<StoredLocation>, now: int, supported: bool) {
    supported && FreshCoord(entry, now).None?
  }

  /** The coordinate the first load settles on; `None` means Delhi. */
  function ResolveInitialCoord(entry: Option<StoredLocation>, now: int, supported: bool, geo: GeoOutcome): (r: Option<Coord>)
    ensures FreshCoord(entry, now).Some? ==> r == FreshCoord(entry, now)
    ensures RequestsGeolocation(entry, now, supported) && geo.Fix? ==> r == Some(geo.coord)
    ensures r.Some? ==> r == FreshCoord(entry, now) || r == StoredCoord(entry) || (geo.Fix? && r == Some(geo.coord))
    ensures r.None? <==>
      FreshCoord(entry, now).None? && (!supported || (geo.GeoFailed? && StoredCoord(entry).None?))
  {
    if FreshCoord(entry, now).Some? then FreshCoord(entry, now)
    else if !supported then None
    else match geo
      case Fix(c) => Some(c)
      case GeoFailed => StoredCoord(entry)
  }

  /** Without a request the geolocation outcome cannot matter. */
  lemma GeolocationOnlyWhenRequested(entry: Option<StoredLocation>, now: int, supported: bool, g1: GeoOutcome, g2: GeoOutcome)
    requires !RequestsGeolocation(entry, now, supported)
    ensures ResolveInitialCoord(entry, now, supported, g1) == ResolveInitialCoord(entry, now, supported, g2)
  {
  }

  /** A stale readable cache is used only when geolocation was asked for and failed. */
  lemma StaleCacheOnlyAfterFailedFix(entry: Option<StoredLocation>, now: int, supported: bool, geo: GeoOutcome)
    requires FreshCoord(entry, now).None? && StoredCoord(entry).Some?
    ensures ResolveInitialCoord(entry, now, supported, geo) == StoredCoord(entry)
        <==> supported && (geo.GeoFailed? || Some(geo.coord) == StoredCoord(entry))
  {
  }

  /** The storage after the first load: an unreadable record is removed and
      a geolocation fix is written with the current time. */
  function StorageAfterLoad(storage: map<string, StoredLocation>, now: int, supported: bool, geo: GeoOutcome): (r: map<string, StoredLocation>)
    ensures forall k :: k != UserLocationKey ==> (k in r <==> k in storage)
    ensures forall k :: k != UserLocationKey && k in r ==> r[k] == storage[k]
    ensures UserLocationKey in r ==> r[UserLocationKey].Record?
    ensures RequestsGeolocation(Lookup(storage), now, supported) && geo.Fix?
      ==> UserLocationKey in r && r[UserLocationKey] == Record(geo.coord, now)
    ensures !(RequestsGeolocation(Lookup(storage), now, supported) && geo.Fix?)
      ==> r == if Lookup(storage) == Some(Unreadable) then storage - {UserLocationKey} else storage
  {
    var cleaned := if Lookup(storage) == Some(Unreadable) then storage - {UserLocationKey} else storage;
    if RequestsGeolocation(Lookup(storage), now, supported) && geo.Fix? then
      cleaned[UserLocationKey := Record(geo.coord, now)]
    else
      cleaned
  }

  /** The first of the candidates that is a non-empty string. */
  function FirstTruthy(candidates: seq<Option<string>>): (r: Option<string>)
    ensures r.Some? ==> r.value != "" && exists i :: 0 <= i < |candidates| && candidates[i] == r
    ensures r.None? ==> forall i :: 0 <= i < |candidates| ==> candidates[i].None? || candidates[i].value == ""
  {
    if candidates == [] then None
    else if candidates[0].Some? && Truthy(candidates[0].value) then candidates[0]
    else
      var rest := FirstTruthy(candidates[1..]);
      assert forall i :: 1 <= i < |candidates| ==> candidates[i] == candidates[1..][i - 1];
      rest
  }

  lemma FirstTruthyOfThree(a: Option<string>, b: Option<string>, c: Option<string>)
    ensures FirstTruthy([a, b, c]) ==
      if a.Some? && a.value != "" then a else if b.Some? && b.value != "" then b
      else if c.Some? && c.value != "" then c else None
  {
    assert [c][1..] == [];
    assert FirstTruthy([c]) == if c.Some? && c.value != "" then c else None;
    assert [b, c][1..] == [c];
    assert FirstTruthy([b, c]) == if b.Some? && b.value != "" then b else FirstTruthy([c]);
    assert [a, b, c][1..] == [b, c];
  }

  function TextOf(s: Option<string>): string {
    s.GetOr("")
  }

  /** The name shown for a reverse-geocoding outcome: `city || town || county`,
      used when truthy, else the default (also when the lookup failed). */
  function CityName(geocoded: Option<Address>, default: string): (r: string)
    ensures geocoded.None? ==> r == default
    ensures geocoded.Some? ==> r == FirstTruthy([geocoded.value.city, geocoded.value.town, geocoded.value.county]).GetOr(default)
  {
    match geocoded
    case None => default
    case Some(a) =>
      FirstTruthyOfThree(a.city, a.town, a.county);
      var fetched := if Truthy(TextOf(a.city)) then TextOf(a.city)
        else if Truthy(TextOf(a.town)) then TextOf(a.town)
        else TextOf(a.county);
      if Truthy(fetched) then fetched else default
  }

  /** City wins over town, town over county, and an all-empty answer keeps the default. */
  lemma CityNamePrecedence(city: string, town: string, county: string, default: string)
    ensures city != "" ==> CityName(Some(Address(Some(city), Some(town), Some(county))), default) == city
    ensures city == "" && town != "" ==> CityName(Some(Address(Some(city), Some(town), None)), default) == town
    ensures CityName(Some(Address(None, None, None)), default) == default
  {
  }

  // ---------------------------------------------------------------------------
  // The page state

  class Dashboard {
    var weather: Option<WeatherData>
    var location: Option<LocationData>
    var cityName: string
    var loading: bool
    var error: Option<string>
    var storage: map<string, StoredLocation>

    constructor (saved: map<string, StoredLocation>)
      ensures weather.None? && location.None? && error.None?
      ensures cityName == "Loading..." && loading
      ensures storage == saved
    {
      weather := None;
      location := None;
      cityName := "Loading...";
      loading := true;
      error := None;
      storage := saved;
    }

    /** `loadWeatherForLocation`: reverse-geocode, then fetch; only a
        successful fetch sets weather and name and clears the error. */
    method LoadWeatherForLocation(geocoded: Option<Address>, fetched: Option<WeatherData>, defaultName: string)
      modifies this
      ensures fetched.Some? ==> weather == fetched && cityName == CityName(geocoded, defaultName) && error.None?
      ensures fetched.None? ==> weather == old(weather) && cityName == old(cityName) && error == Some(LoadFailed)
      ensures location == old(location) && loading == old(loading) && storage == old(storage)
    {
      var name := CityName(geocoded, defaultName);
      if fetched.Some? {
        weather := fetched;
        cityName := name;
        error := None;
      } else {
        error := Some(LoadFailed);
      }
    }

    /** `getInitialLocation`; returns the coordinate the weather was requested for. */
    method LoadInitialLocation(now: int, supported: bool, geo: GeoOutcome, geocoded: Option<Address>, fetched: Option<WeatherData>)
      returns (target: Coord)
      modifies this
      ensures var resolved := ResolveInitialCoord(Lookup(old(storage)), now, supported, geo);
        target == resolved.GetOr(Delhi)
        && (fetched.Some? ==> cityName == CityName(geocoded, if resolved.Some? then YourLocation else "Delhi"))
      ensures storage == StorageAfterLoad(old(storage), now, supported, geo)
      ensures fetched.Some? ==> weather == fetched && error.None?
      ensures fetched.None? ==> weather == old(weather) && cityName == old(cityName) && error == Some(LoadFailed)
      ensures !loading && location == old(location)
    {
      var cached := Lookup(storage);
      var userCoord: Option<Coord> := None;
      if cached.Some? {
        match cached.value
        case Record(c, ts) =>
          if now - ts < OneWeekMs {
            userCoord := Some(c);
          }
        case Unreadable =>
          storage := storage - {UserLocationKey};
      }
      if supported && userCoord.None? {
        match geo
        case Fix(c) =>
          userCoord := Some(c);
          storage := storage[UserLocationKey := Record(c, now)];
        case GeoFailed =>
          if cached.Some? && cached.value.Record? {
            userCoord := Some(cached.value.coord);
          }
      }
      if userCoord.Some? {
        target := userCoord.value;
        LoadWeatherForLocation(geocoded, fetched, YourLocation);
      } else {
        target := Delhi;
        LoadWeatherForLocation(geocoded, fetched, "Delhi");
      }
      loading := false;
    }

    /** `handleLocationSelect`: shows the chosen place's name at once, then
        fetches its weather; the cached coordinate is never touched. */
    method HandleLocationSelect(selected: LocationData, fetched: Option<WeatherData>) returns (target: Coord)
      modifies this
      ensures target == Coord(selected.latitude, selected.longitude)
      ensures location == Some(selected) && cityName == DisplayName(selected)
      ensures fetched.Some? ==> weather == fetched && error.None?
      ensures fetched.None? ==> weather == old(weather) && error == Some(SelectFailed)
      ensures !loading && storage == old(storage)
    {
      loading := true;
      error := None;
      location := Some(selected);
      cityName := selected.name + (if selected.admin1.Some? && Truthy(selected.admin1.value) then ", " + selected.admin1.value else "");
      target := Coord(selected.latitude, selected.longitude);
      if fetched.Some? {
        weather := fetched;
      } else {
        error := Some(SelectFailed);
      }
      loading := false;
    }

    /** `handleUseCurrentLocation`: always asks for a fresh fix; any failure
        of the fix or of its weather fetch falls back to Delhi. Returns the
        coordinates weather was requested for, in order. `fetchedAtFix` is
        the fetch for the fix, `fetchedDelhi` the fallback fetch. */
    method HandleUseCurrentLocation(now: int, supported: bool, geo: GeoOutcome, geocoded: Option<Address>,
                                    fetchedAtFix: Option<WeatherData>, fetchedDelhi: Option<WeatherData>)
      returns (requested: seq<Coord>)
      modifies this
      ensures !supported ==>
        (requested == [] && error == Some(GeoUnsupported) && weather == old(weather) && cityName == old(cityName))
      ensures supported && geo.Fix? && fetchedAtFix.Some? ==>
        (requested == [geo.coord] && weather == fetchedAtFix && error.None? && cityName == CityName(geocoded, YourLocation))
      ensures supported && !(geo.Fix? && fetchedAtFix.Some?) ==>
        (requested == (if geo.Fix? then [geo.coord, Delhi] else [Delhi])
         && (fetchedDelhi.Some? ==> weather == fetchedDelhi && cityName == "Delhi" && error.None?)
         && (fetchedDelhi.None? ==> weather == old(weather) && cityName == old(cityName) && error == Some(LoadFailed)))
      ensures storage == if supported && geo.Fix? && fetchedAtFix.Some?
        then old(storage)[UserLocationKey := Record(geo.coord, now)] else old(storage)
      ensures !loading && location == old(location)
    {
      loading := true;
      error := None;
      requested := [];
      if !supported {
        error := Some(GeoUnsupported);
        loading := false;
        return;
      }
      var succeeded := false;
      if geo.Fix? {
        var name := CityName(geocoded, YourLocation);
        requested := requested + [geo.coord];
        if fetchedAtFix.Some? {
          weather := fetchedAtFix;
          cityName := name;
          error := None;
          storage := storage[UserLocationKey := Record(geo.coord, now)];
          succeeded := true;
        }
      }
      if !succeeded {
        requested := requested + [Delhi];
        if fetchedDelhi.Some? {
          weather := fetchedDelhi;
          cityName := "Delhi";
          error := None;
        } else {
          error := Some(LoadFailed);
        }
      }
      loading := false;
    }
  }

  /** With a stale readable cache and a failed fix, the first load still uses
      the cached coordinate (whereas "Current" falls back to Delhi). */
  lemma LoadFallsBackToStaleCache(c: Coord, ts: int, now: int)
    requires now - ts >= OneWeekMs
    ensures ResolveInitialCoord(Some(Record(c, ts)), now, true, GeoFailed) == Some(c)
  {
  }
}
