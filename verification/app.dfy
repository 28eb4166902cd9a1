/** The application's own decisions around the two queries: when they run, when a failed
    weather query is retried, how provider bodies are shaped for display, what the search bar
    submits, and the initial dark-mode flag. */
module App {
  import opened Wrappers
  import opened WeatherApi
  import Cache
  import Strings

  // ---------------------------------------------------------------- query options

  /** `enabled: !!searchCity`: a query runs only for a non-empty city. */
  function QueryEnabled(searchCity: string): (enabled: bool)
    ensures enabled <==> |searchCity| > 0
  {
    searchCity != ""
  }

  /** A query for `kind`: no call at all while disabled, otherwise one gateway call. */
  function RunQuery<B>(kind: Endpoint, searchCity: string, store: Cache.Store<Response<B>>, now: int,
                       fetcher: Cache.Fetched<Response<B>>): (q: Option<Call<B>>)
    ensures q.None? <==> !QueryEnabled(searchCity)
    ensures q.Some? ==> q.value.result != Err(EmptyCityMessage)
  {
    if QueryEnabled(searchCity) then Some(GetData(kind, searchCity, store, now, fetcher)) else None
  }

  /** The weather query's `retry(failureCount, error)`; `message` is `None` when the thrown
      value is not an `Error`. A message naming the rate limit is never retried. */
  function ShouldRetry(failureCount: nat, message: Option<string>): (retry: bool)
    ensures message.Some? && Strings.Contains(message.value, RateLimitMarker) ==> !retry
    ensures !(message.Some? && Strings.Contains(message.value, RateLimitMarker)) ==>
              (retry <==> failureCount < 2)
  {
    if message.Some? && Strings.Contains(message.value, RateLimitMarker) then false
    else failureCount < 2
  }

  /** For the messages the gateway throws, a retry happens exactly when the provider did not
      answer 429 and fewer than two failures have been counted. */
  lemma RetryPolicyOnGatewayErrors(kind: Endpoint, f: Failure, failureCount: nat)
    ensures ShouldRetry(failureCount, Some(Classify(kind, f))) <==>
              f != Fetch(Cache.HttpError(429)) && failureCount < 2
  {
    RateLimitDetectable(kind, f);
  }

  /** Whatever the error, the predicate allows a retry only at failure counts 0 and 1. */
  lemma RetryBounded(failureCount: nat, message: Option<string>)
    ensures ShouldRetry(failureCount, message) ==> failureCount <= 1
  {
  }

  // ---------------------------------------------------------------- the search bar

  /** After a submit: the city handed to `onSearch`, if any, and the input's new text. */
  datatype Submission = Submission(searched: Option<string>, query: string)

  /** `SearchBar.handleSubmit`: a query that is not blank is trimmed, searched and cleared;
      a blank one changes nothing. */
  function HandleSubmit(query: string): (s: Submission)
    ensures s.searched.Some? <==> Strings.Trim(query) != ""
    ensures s.searched.Some? <==> !Strings.AllSpace(query)
    ensures s.searched.Some? ==> s.searched.value == Strings.Trim(query) && s.query == ""
    ensures s.searched.None? ==> s.query == query
  {
    var trimmed := Strings.Trim(query);
    if trimmed != "" then Submission(Some(trimmed), "") else Submission(None, query)
  }

  /** A submitted city is non-empty with no surrounding blanks, and occurs in the typed text,
      so both queries run for it and it is never rejected as empty. */
  lemma SubmittedCityIsQueried(query: string)
    requires HandleSubmit(query).searched.Some?
    ensures var city := HandleSubmit(query).searched.value;
            && QueryEnabled(city)
            && Strings.Trim(city) == city
            && !Strings.IsSpace(city[0]) && !Strings.IsSpace(city[|city| - 1])
            && Strings.Contains(query, city)
  {
    var city := Strings.Trim(query);
    assert HandleSubmit(query).searched.value == city;
    assert city != [];
    assert !Strings.IsSpace(city[0]) && !Strings.IsSpace(city[|city| - 1]);
    assert QueryEnabled(city);
    Strings.TrimIdempotent(query);
    Strings.TrimContained(query);
  }

  // ---------------------------------------------------------------- dark mode

  /** The initial dark-mode flag: with no window, off; otherwise a saved value wins (only the
      text "true" means on), and without one the system colour-scheme preference decides. */
  function InitialDarkMode(hasWindow: bool, saved: Option<string>, prefersDark: bool): (dark: bool)
    ensures !hasWindow ==> !dark
    ensures hasWindow && saved.Some? ==> (dark <==> saved.value == "true")
    ensures hasWindow && saved.None? ==> dark == prefersDark
  {
    if hasWindow then
      if saved.Some? then saved.value == "true" else prefersDark
    else false
  }

  /** `darkMode.toString()`, the text saved on every change. */
  function DarkModeText(dark: bool): string {
    if dark then "true" else "false"
  }

  function ToggleDarkMode(dark: bool): (flipped: bool)
    ensures flipped != dark
  {
    !dark
  }

  /** A saved flag is read back unchanged whatever the system preference, and toggling twice
      restores it. */
  lemma DarkModeRoundTrip(dark: bool, prefersDark: bool)
    ensures InitialDarkMode(true, Some(DarkModeText(dark)), prefersDark) == dark
    ensures ToggleDarkMode(ToggleDarkMode(dark)) == dark
  {
  }

  // ---------------------------------------------------------------- current conditions

  /** What the weather query hands to the page (`WeatherData`). */
  datatype WeatherData = WeatherData(
    city: string,
    temperature: real,
    humidity: real,
    windSpeed: real,
    condition: string,
    icon: string,
    timestamp: int,
    feelsLike: real,
    pressure: real,
    visibility: real,
    sunrise: int,
    sunset: int,
    cloudiness: real)

  /** The weather query's `select` at clock reading `now`. It reads `weather[0]`, so a body with
      an empty `weather` array makes it throw (`None`). */
  function SelectWeather(data: WeatherResponse, now: int): (r: Option<WeatherData>)
    ensures r.None? <==> data.weather == []
    ensures r.Some? ==>
              && r.value.city == data.name
              && r.value.temperature == data.main.temp
              && r.value.humidity == data.main.humidity
              && r.value.windSpeed == data.wind.speed
              && r.value.condition == data.weather[0].description
              && r.value.icon == data.weather[0].icon
              && r.value.timestamp == now
              && r.value.feelsLike == data.main.feelsLike
              && r.value.pressure == data.main.pressure
              && r.value.visibility == data.visibility
              && r.value.sunrise == data.sys.sunrise
              && r.value.sunset == data.sys.sunset
              && r.value.cloudiness == data.clouds.all
  {
    if data.weather == [] then None
    else
      var w := data.weather[0];
      Some(WeatherData(data.name, data.main.temp, data.main.humidity, data.wind.speed,
                       w.description, w.icon, now, data.main.feelsLike, data.main.pressure,
                       data.visibility, data.sys.sunrise, data.sys.sunset, data.clouds.all))
  }

  /** Nothing but the copied fields reaches the page: the country and every condition after
      the first are ignored. */
  lemma SelectWeatherReadsOnlyCopiedFields(a: WeatherResponse, b: WeatherResponse, now: int)
    requires a.name == b.name && a.main == b.main && a.wind == b.wind
    requires a.visibility == b.visibility && a.clouds == b.clouds
    requires a.sys.sunrise == b.sys.sunrise && a.sys.sunset == b.sys.sunset
    requires (a.weather == []) == (b.weather == [])
    requires a.weather != [] ==> a.weather[0] == b.weather[0]
    ensures SelectWeather(a, now) == SelectWeather(b, now)
  {
  }

  // ---------------------------------------------------------------- forecast

  /** How many forecast entries are kept: eight three-hour steps. */
  const ForecastWindow: nat := 8

  /** One displayed forecast step (`ForecastData`). */
  datatype ForecastPoint = ForecastPoint(
    time: string,
    temperature: real,
    humidity: real,
    windSpeed: real,
    condition: string,
    icon: string)

  function Min(a: nat, b: nat): nat {
    if a <= b then a else b
  }

  /** `p` is the displayed form of `item`, field by field. */
  predicate ShowsItem(p: ForecastPoint, item: ForecastItem) {
    && item.weather != []
    && p.time == item.dtText
    && p.temperature == item.main.temp
    && p.humidity == item.main.humidity
    && p.windSpeed == item.wind.speed
    && p.condition == item.weather[0].description
    && p.icon == item.weather[0].icon
  }

  /** `items.map(...)`: each entry shaped in order; throws (`None`) if an entry has no
      `weather[0]`. */
  function MapPoints(items: seq<ForecastItem>): (r: Option<seq<ForecastPoint>>)
    ensures r.Some? <==> forall i :: 0 <= i < |items| ==> items[i].weather != []
    ensures r.Some? ==> |r.value| == |items|
    ensures r.Some? ==> forall i :: 0 <= i < |items| ==> ShowsItem(r.value[i], items[i])
    decreases |items|
  {
    if items == [] then Some([])
    else if items[0].weather == [] then None
    else
      var item := items[0];
      var p := ForecastPoint(item.dtText, item.main.temp, item.main.humidity, item.wind.speed,
                             item.weather[0].description, item.weather[0].icon);
      match MapPoints(items[1..])
      case None => None
      case Some(rest) => Some([p] + rest)
  }

  /** The forecast query's `select`: `list.slice(0, 8).map(...)`. */
  function SelectForecast(data: ForecastResponse): (r: Option<seq<ForecastPoint>>)
    ensures r.Some? <==> forall i :: 0 <= i < Min(ForecastWindow, |data.list|) ==> data.list[i].weather != []
    ensures r.Some? ==> |r.value| == Min(ForecastWindow, |data.list|)
    ensures r.Some? ==> forall i :: 0 <= i < |r.value| ==> ShowsItem(r.value[i], data.list[i])
  {
    MapPoints(data.list[..Min(ForecastWindow, |data.list|)])
  }

  /** Entries past the eighth never matter, not even malformed ones. */
  lemma ForecastIgnoresLaterEntries(a: seq<ForecastItem>, b: seq<ForecastItem>, city: City)
    requires |a| >= ForecastWindow
    ensures SelectForecast(ForecastResponse(a + b, city)) == SelectForecast(ForecastResponse(a, city))
  {
    assert (a + b)[..ForecastWindow] == a[..ForecastWindow];
  }
}
