/** The weather flow: the simulated reading its tool returns for a
    location, and the location label the flow puts over the model's answer. */
module WeatherFlow {

  import opened Wrappers
  import opened Types
  import opened JsString
  import opened JsMath
  import opened AddressLabel

  /** The base temperature and the condition picked for a location. */
  datatype Climate = Climate(base: int, condition: string)

  /** What the weather tool returns. */
  datatype WeatherReading = WeatherReading(temperature: int, condition: string)

  const York := Climate(12, "Cloudy")
  const London := Climate(15, "Light Rain")
  const Elsewhere := Climate(22, "Sunny")

  /** The if/else chain on the lowercased location: "york" is tested first. */
  function ClimateFor(location: string): (c: Climate)
    ensures c in {York, London, Elsewhere}
    ensures c == York <==> Includes(ToLower(location), "york")
    ensures c == London <==> !Includes(ToLower(location), "york") && Includes(ToLower(location), "london")
  {
    var lower := ToLower(location);
    if Includes(lower, "york") then York
    else if Includes(lower, "london") then London
    else Elsewhere
  }

  /** Lowercasing twice is lowercasing once. */
  lemma ToLowerIdempotent(s: string)
    ensures ToLower(ToLower(s)) == ToLower(s)
  {
    assert forall i :: 0 <= i < |s| ==> LowerChar(LowerChar(s[i])) == LowerChar(s[i]);
  }

  /** The choice ignores the case of ASCII letters. */
  lemma ClimateIgnoresCase(location: string)
    ensures ClimateFor(ToLower(location)) == ClimateFor(location)
  {
    ToLowerIdempotent(location);
  }

  /** A location containing "york" in any letter case is cloudy, whatever
      else it contains, "london" included. */
  lemma YorkWins(prefix: string, w: string, suffix: string)
    requires ToLower(w) == "york"
    ensures ClimateFor(prefix + w + suffix) == York
  {
    var s := prefix + w + suffix;
    var lower := ToLower(s);
    var i := |prefix|;
    assert lower[i..][..4] == ToLower(w) by {
      assert forall k :: 0 <= k < 4 ==> lower[i..][..4][k] == LowerChar(w[k]);
    }
    IncludesAt(lower, "york");
  }

  /** The base temperature plus an offset of four times the draw less two,
      rounded: with the draw num/den the sum is
      (base * den + 4 * num - 2 * den) / den. */
  function Temperature(base: int, d: RandomDraw): (t: int)
    ensures (2 * t - 1) * d.den <= 2 * (base * d.den + 4 * d.num - 2 * d.den) < (2 * t + 1) * d.den
    ensures base - 2 <= t <= base + 2
  {
    var t := RoundFraction(base * d.den + 4 * d.num - 2 * d.den, d.den);
    RoundedWithinTwo(base, d, t);
    t
  }

  /** Rounding a value in [base - 2, base + 2) lands in base - 2 .. base + 2. */
  lemma RoundedWithinTwo(base: int, d: RandomDraw, t: int)
    requires (2 * t - 1) * d.den <= 2 * (base * d.den + 4 * d.num - 2 * d.den) < (2 * t + 1) * d.den
    ensures base - 2 <= t <= base + 2
  {
    var n := d.den;
    assert 2 * (base * n + 4 * d.num - 2 * n) >= (2 * base - 4) * n;
    assert 2 * (base * n + 4 * d.num - 2 * n) < (2 * base + 4) * n;
    CancelFactor(2 * base - 4, 2 * t + 1, n);
    CancelFactor(2 * t - 1, 2 * base + 4, n);
  }

  /** `getWeatherDetailsTool` for a location and its one `Math.random()` draw. */
  function GetWeatherDetails(location: string, d: RandomDraw): (w: WeatherReading)
    ensures w.condition == ClimateFor(location).condition
    ensures w.condition in {"Cloudy", "Light Rain", "Sunny"}
    ensures w.temperature == Temperature(ClimateFor(location).base, d)
    ensures ClimateFor(location).base - 2 <= w.temperature <= ClimateFor(location).base + 2
  {
    var c := ClimateFor(location);
    WeatherReading(Temperature(c.base, d), c.condition)
  }

  const LocationFallback := "Unknown"
  const NoWeather := "Unable to get weather data."

  /** `weatherFlow`: fails when the model gives no output; otherwise the
      model's reading with the location replaced by the first
      comma-separated part of the requested location. */
  function Weather(location: string, output: Option<WeatherData>): (r: Result<WeatherData>)
    ensures r.Failure? <==> output.None?
    ensures r.Failure? ==> r.message == NoWeather
    ensures r.Success? ==>
      && r.value.temperature == output.value.temperature
      && r.value.condition == output.value.condition
      && r.value.location == SegmentLabel(location, 0, LocationFallback)
      && r.value.location != ""
  {
    match output
    case None => Failure(NoWeather)
    case Some(data) => Success(data.(location := SegmentLabel(location, 0, LocationFallback)))
  }

  /** The displayed location is the text before the first comma, trimmed,
      or "Unknown" when that text is blank. */
  lemma LocationLabel(first: string, rest: string, data: WeatherData)
    requires ',' !in first
    ensures Weather(first + "," + rest, Some(data)).value.location ==
      if AllWhitespace(first) then LocationFallback else Trim(first)
    ensures Weather(first, Some(data)).value.location ==
      if AllWhitespace(first) then LocationFallback else Trim(first)
  {
    FirstPartLabel(first, rest, LocationFallback);
  }
}
