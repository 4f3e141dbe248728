/** The derived values the current-conditions card shows: Fahrenheit, the AQI
    category (the US EPA category breakpoints 50/100/150/200/300), the UV
    advice, the wind arrow and the 16-point compass name. */
module CurrentWeather {
  import opened Wrappers
  import opened JsSemantics

  // ---------------------------------------------------------------------------
  // Temperature

  function CelsiusToFahrenheit(celsius: real): (f: real)
    ensures (f - 32.0) * 5.0 == celsius * 9.0
  {
    (celsius * 9.0) / 5.0 + 32.0
  }

  /** Freezing and boiling points, and the conversion is strictly increasing. */
  lemma FahrenheitScale(a: real, b: real)
    ensures CelsiusToFahrenheit(0.0) == 32.0 && CelsiusToFahrenheit(100.0) == 212.0
    ensures a < b ==> CelsiusToFahrenheit(a) < CelsiusToFahrenheit(b)
  {
  }

  // ---------------------------------------------------------------------------
  // Banding by breakpoints

  /** How many breakpoints lie strictly below `x`. */
  function CountBelow(bounds: seq<real>, x: real): (n: nat)
    ensures n <= |bounds|
  {
    if bounds == [] then 0 else (if bounds[0] < x then 1 else 0) + CountBelow(bounds[1..], x)
  }

  /** How many breakpoints lie at or below `x`. */
  function CountAtOrBelow(bounds: seq<real>, x: real): (n: nat)
    ensures n <= |bounds|
  {
    if bounds == [] then 0 else (if bounds[0] <= x then 1 else 0) + CountAtOrBelow(bounds[1..], x)
  }

  /** A larger value is past at least as many breakpoints. */
  lemma {:induction false} CountsMonotone(bounds: seq<real>, a: real, b: real)
    requires a <= b
    ensures CountBelow(bounds, a) <= CountBelow(bounds, b)
    ensures CountAtOrBelow(bounds, a) <= CountAtOrBelow(bounds, b)
    decreases |bounds|
  {
    if bounds != [] {
      CountsMonotone(bounds[1..], a, b);
    }
  }

  // ---------------------------------------------------------------------------
  // Air quality

  /** Upper ends of the Good, Moderate, Unhealthy for Sensitive Groups,
      Unhealthy and Very Unhealthy categories; above the last is Hazardous. */
  const AqiUpperBounds: seq<real> := [50.0, 100.0, 150.0, 200.0, 300.0]

  const AqiLabels: seq<string> :=
    ["Good", "Moderate", "Unhealthy for Sensitive Groups", "Unhealthy", "Very Unhealthy", "Hazardous"]

  const AqiColors: seq<string> :=
    ["text-green-600", "text-yellow-600", "text-orange-600", "text-red-600", "text-purple-600", "text-red-900"]

  /** The category index 0..5: the number of upper bounds the value exceeds. */
  function AqiCategory(aqi: real): (k: nat)
    ensures k < 6
  {
    CountBelow(AqiUpperBounds, aqi)
  }

  /** The breakpoint count unfolded over the five literal bounds. */
  lemma AqiCategoryUnfolded(aqi: real)
    ensures AqiCategory(aqi) ==
      if aqi <= 50.0 then 0 else if aqi <= 100.0 then 1 else if aqi <= 150.0 then 2
      else if aqi <= 200.0 then 3 else if aqi <= 300.0 then 4 else 5
  {
    assert CountBelow([300.0], aqi) == if aqi <= 300.0 then 0 else 1;
    assert CountBelow([200.0, 300.0], aqi) == if aqi <= 200.0 then 0 else 1 + CountBelow([300.0], aqi);
    assert CountBelow([150.0, 200.0, 300.0], aqi) == if aqi <= 150.0 then 0 else 1 + CountBelow([200.0, 300.0], aqi);
    assert CountBelow([100.0, 150.0, 200.0, 300.0], aqi)
      == if aqi <= 100.0 then 0 else 1 + CountBelow([150.0, 200.0, 300.0], aqi);
  }

  function GetAQILabel(aqi: real): (r: string)
    ensures r == AqiLabels[AqiCategory(aqi)]
  {
    AqiCategoryUnfolded(aqi);
    if aqi <= 50.0 then "Good"
    else if aqi <= 100.0 then "Moderate"
    else if aqi <= 150.0 then "Unhealthy for Sensitive Groups"
    else if aqi <= 200.0 then "Unhealthy"
    else if aqi <= 300.0 then "Very Unhealthy"
    else "Hazardous"
  }

  function GetAQIColor(aqi: real): (r: string)
    ensures r == AqiColors[AqiCategory(aqi)]
  {
    AqiCategoryUnfolded(aqi);
    if aqi <= 50.0 then "text-green-600"
    else if aqi <= 100.0 then "text-yellow-600"
    else if aqi <= 150.0 then "text-orange-600"
    else if aqi <= 200.0 then "text-red-600"
    else if aqi <= 300.0 then "text-purple-600"
    else "text-red-900"
  }

  /** Label and colour always belong to the same category: two readings share
      a label exactly when they share a colour. */
  lemma AqiLabelMatchesColor(a: real, b: real)
    ensures GetAQILabel(a) == GetAQILabel(b) <==> GetAQIColor(a) == GetAQIColor(b)
    ensures GetAQILabel(a) == GetAQILabel(b) <==> AqiCategory(a) == AqiCategory(b)
  {
  }

  /** A worse reading never gets a milder category. */
  lemma AqiCategoryMonotone(a: real, b: real)
    requires a <= b
    ensures AqiCategory(a) <= AqiCategory(b)
  {
    CountsMonotone(AqiUpperBounds, a, b);
  }

  lemma AqiExamples()
    ensures GetAQILabel(42.0) == "Good" && GetAQILabel(50.0) == "Good"
    ensures GetAQILabel(151.0) == "Unhealthy" && GetAQILabel(301.0) == "Hazardous"
  {
  }

  // ---------------------------------------------------------------------------
  // UV index

  datatype UvAdvice = UvAdvice(level: string, recommendation: string, color: string)

  /** Lower ends of the Moderate, High, Very High and Extreme levels. */
  const UvLowerBounds: seq<real> := [3.0, 6.0, 8.0, 11.0]

  const UvAdviceTable: seq<UvAdvice> := [
    UvAdvice("Low", "Minimal sun protection needed", "text-green-600"),
    UvAdvice("Moderate", "Wear sunscreen & hat", "text-yellow-600"),
    UvAdvice("High", "Use SPF 30+ sunscreen", "text-orange-600"),
    UvAdvice("Very High", "Extra protection needed", "text-red-600"),
    UvAdvice("Extreme", "Avoid sun exposure", "text-red-900")]

  /** The level index 0..4: the number of lower bounds reached. */
  function UvLevel(uvIndex: real): (k: nat)
    ensures k < 5
  {
    CountAtOrBelow(UvLowerBounds, uvIndex)
  }

  /** The breakpoint count unfolded over the four literal bounds. */
  lemma UvLevelUnfolded(uvIndex: real)
    ensures UvLevel(uvIndex) ==
      if uvIndex < 3.0 then 0 else if uvIndex < 6.0 then 1 else if uvIndex < 8.0 then 2
      else if uvIndex < 11.0 then 3 else 4
  {
    assert CountAtOrBelow([11.0], uvIndex) == if uvIndex < 11.0 then 0 else 1;
    assert CountAtOrBelow([8.0, 11.0], uvIndex) == if uvIndex < 8.0 then 0 else 1 + CountAtOrBelow([11.0], uvIndex);
    assert CountAtOrBelow([6.0, 8.0, 11.0], uvIndex)
      == if uvIndex < 6.0 then 0 else 1 + CountAtOrBelow([8.0, 11.0], uvIndex);
  }

  function GetUVRecommendation(uvIndex: real): (r: UvAdvice)
    ensures r == UvAdviceTable[UvLevel(uvIndex)]
  {
    UvLevelUnfolded(uvIndex);
    if uvIndex < 3.0 then UvAdvice("Low", "Minimal sun protection needed", "text-green-600")
    else if uvIndex < 6.0 then UvAdvice("Moderate", "Wear sunscreen & hat", "text-yellow-600")
    else if uvIndex < 8.0 then UvAdvice("High", "Use SPF 30+ sunscreen", "text-orange-600")
    else if uvIndex < 11.0 then UvAdvice("Very High", "Extra protection needed", "text-red-600")
    else UvAdvice("Extreme", "Avoid sun exposure", "text-red-900")
  }

  /** A higher index never gets a lower level. */
  lemma UvLevelMonotone(a: real, b: real)
    requires a <= b
    ensures UvLevel(a) <= UvLevel(b)
  {
    CountsMonotone(UvLowerBounds, a, b);
  }

  lemma UvExamples()
    ensures GetUVRecommendation(2.5).level == "Low" && GetUVRecommendation(3.0).level == "Moderate"
    ensures GetUVRecommendation(9.0).level == "Very High" && GetUVRecommendation(11.0).level == "Extreme"
  {
  }

  // ---------------------------------------------------------------------------
  // Wind arrow

  /** `((degrees % 360) + 360) % 360`: the floored remainder, in [0, 360). */
  function NormalizeDegrees(degrees: real): (n: real)
    ensures 0.0 <= n < 360.0
    ensures n == degrees - 360.0 * (degrees / 360.0).Floor as real
  {
    var once := Rem360(degrees);
    var n := Rem360(once + 360.0);
    NormalizeIsFlooredRemainder(degrees);
    n
  }

  lemma FloorShift(y: real, k: int)
    ensures (y + k as real).Floor == y.Floor + k
  {
  }

  lemma NormalizeIsFlooredRemainder(d: real)
    ensures Rem360(Rem360(d) + 360.0) == d - 360.0 * (d / 360.0).Floor as real
  {
    var t := Trunc(d / 360.0);
    var x := d - 360.0 * t as real + 360.0;
    assert Rem360(d) + 360.0 == x;
    assert x >= 0.0;
    assert x / 360.0 == d / 360.0 + (1 - t) as real;
    FloorShift(d / 360.0, 1 - t);
  }

  /** Directions a full turn apart normalise alike. */
  lemma NormalizePeriodic(degrees: real, turns: int)
    ensures NormalizeDegrees(degrees + 360.0 * turns as real) == NormalizeDegrees(degrees)
  {
    var d := degrees + 360.0 * turns as real;
    assert d / 360.0 == degrees / 360.0 + turns as real;
    FloorShift(degrees / 360.0, turns);
  }

  /** The arrows of the eight 45-degree sectors, starting with the one centred on north. */
  const Arrows: seq<string> := ["↓", "↙", "←", "↖", "↑", "↗", "→", "↘"]

  /** The sector a normalised direction falls in: sector k is centred on 45k degrees. */
  function ArrowSector(n: real): (k: nat)
    requires 0.0 <= n < 360.0
    ensures k < 8
  {
    ((n + 22.5) / 45.0).Floor % 8
  }

  function GetWindDirectionArrow(degrees: real): (r: string)
    ensures r == Arrows[ArrowSector(NormalizeDegrees(degrees))]
  {
    var n := NormalizeDegrees(degrees);
    if n < 22.5 || n >= 337.5 then "↓"
    else if n < 67.5 then "↙"
    else if n < 112.5 then "←"
    else if n < 157.5 then "↖"
    else if n < 202.5 then "↑"
    else if n < 247.5 then "↗"
    else if n < 292.5 then "→"
    else "↘"
  }

  /** The arrow depends only on the direction modulo a full turn. */
  lemma ArrowPeriodic(degrees: real, turns: int)
    ensures GetWindDirectionArrow(degrees + 360.0 * turns as real) == GetWindDirectionArrow(degrees)
  {
    NormalizePeriodic(degrees, turns);
  }

  lemma ArrowExamples()
    ensures GetWindDirectionArrow(0.0) == GetWindDirectionArrow(360.0) == "↓"
    ensures GetWindDirectionArrow(90.0) == "←" && GetWindDirectionArrow(270.0) == "→"
    ensures GetWindDirectionArrow(-90.0) == GetWindDirectionArrow(270.0)
  {
    ArrowPeriodic(0.0, 1);
    ArrowPeriodic(270.0, -1);
  }

  // ---------------------------------------------------------------------------
  // Compass name

  const Directions: seq<string> :=
    ["N", "NNE", "NE", "ENE", "E", "ESE", "SE", "SSE", "S", "SSW", "SW", "WSW", "W", "WNW", "NW", "NNW"]

  /** `Math.round(degrees / 22.5) % 16`, negative for some negative inputs. */
  function CompassIndex(degrees: real): (i: int)
    ensures -16 < i < 16
    ensures degrees >= 0.0 ==> 0 <= i
  {
    RemInt(Round(degrees / 22.5), 16)
  }

  /** `directions[index]`, `None` (undefined) for a negative index. */
  function GetWindDirection(degrees: real): (r: Option<string>)
    ensures degrees >= 0.0 ==> r.Some?
    ensures r.Some? <==> CompassIndex(degrees) >= 0
    ensures r.Some? ==> r.value == Directions[CompassIndex(degrees)]
  {
    var i := CompassIndex(degrees);
    if i >= 0 then Some(Directions[i]) else None
  }

  /** For a direction in [0, 360) the index names the 22.5-degree sector
      centred on 22.5 times the index, north taking both ends. */
  lemma CompassSector(degrees: real)
    requires 0.0 <= degrees < 360.0
    ensures var i := CompassIndex(degrees);
      if i == 0 then degrees < 11.25 || degrees >= 348.75
      else i as real * 22.5 - 11.25 <= degrees < i as real * 22.5 + 11.25
  {
    var k := Round(degrees / 22.5);
    assert 0 <= k <= 16;
  }

  /** Adding a full turn to a non-negative direction keeps its compass name. */
  lemma CompassPeriodic(degrees: real)
    requires degrees >= 0.0
    ensures CompassIndex(degrees + 360.0) == CompassIndex(degrees)
  {
    assert (degrees + 360.0) / 22.5 + 0.5 == (degrees / 22.5 + 0.5) + 16 as real;
    FloorShift(degrees / 22.5 + 0.5, 16);
  }

  lemma CompassExamples()
    ensures GetWindDirection(0.0) == GetWindDirection(360.0) == Some("N")
    ensures GetWindDirection(90.0) == Some("E") && GetWindDirection(270.0) == Some("W")
  {
    CompassPeriodic(0.0);
  }

  // ---------------------------------------------------------------------------
  // Times

  /** `formatTime`: "--:--" for an empty string; otherwise the locale's
      rendering of the parsed time, which is passed in as `localized`. */
  function FormatTime(timeString: string, localized: string): (r: string)
    ensures timeString == "" ==> r == "--:--"
    ensures timeString != "" ==> r == localized
  {
    if !Truthy(timeString) then "--:--" else localized
  }
}
