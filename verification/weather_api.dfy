/** The provider gateway: `getWeatherData` and `getForecastData`. Each rejects an empty city,
    goes through the shared cache under an endpoint-specific key, and turns every failure
    into one of a fixed set of messages. The two functions differ only in key prefix,
    rate-limit budget and wording, so both are modelled by `GetData` with an `Endpoint`. */
module WeatherApi {
  import opened Wrappers
  import opened Cache
  import Decimal
  import Strings

  // ---------------------------------------------------------------- provider payloads

  /** One entry of a `weather` array. */
  datatype Condition = Condition(description: string, icon: string)

  /** The `main` block of a current-conditions response (`feels_like` is `feelsLike`). */
  datatype MainReading = MainReading(temp: real, humidity: real, feelsLike: real, pressure: real)

  datatype Wind = Wind(speed: real)

  datatype Sys = Sys(sunrise: int, sunset: int, country: string)

  datatype Clouds = Clouds(all: real)

  /** The current-conditions body (`WeatherResponse`). */
  datatype WeatherResponse = WeatherResponse(
    name: string,
    main: MainReading,
    weather: seq<Condition>,
    wind: Wind,
    visibility: real,
    sys: Sys,
    clouds: Clouds)

  /** The `main` block of one forecast entry. */
  datatype ForecastMain = ForecastMain(temp: real, humidity: real)

  /** One three-hour forecast entry (`dt_txt` is `dtText`). */
  datatype ForecastItem = ForecastItem(
    dt: int,
    dtText: string,
    main: ForecastMain,
    weather: seq<Condition>,
    wind: Wind)

  datatype City = City(name: string)

  /** The forecast body (`ForecastResponse`). */
  datatype ForecastResponse = ForecastResponse(list: seq<ForecastItem>, city: City)

  /** What the HTTP client resolves with; `data` is `None` when the body is falsy. The cache
      stores these whole responses, so a body of type `B` sits inside every entry. */
  datatype Response<B> = Response(data: Option<B>)

  // ---------------------------------------------------------------- endpoints and keys

  datatype Endpoint = Weather | Forecast

  /** `CALLS_PER_MINUTE` and `FORECAST_CALLS_PER_MINUTE`. */
  const CallsPerMinute: nat := 60
  const ForecastCallsPerMinute: nat := 5

  function KeyPrefix(kind: Endpoint): string {
    match kind
    case Weather => "weather:"
    case Forecast => "forecast:"
  }

  /** The cache key: the endpoint prefix followed by the city exactly as given. */
  function CacheKey(kind: Endpoint, city: string): (key: string)
    ensures |key| == |KeyPrefix(kind)| + |city|
    ensures key[..|KeyPrefix(kind)|] == KeyPrefix(kind)
    ensures key[|KeyPrefix(kind)|..] == city
  {
    KeyPrefix(kind) + city
  }

  /** Keys of the two endpoints never meet, and each endpoint's keys tell cities apart. */
  lemma CacheKeysDistinct(kind1: Endpoint, city1: string, kind2: Endpoint, city2: string)
    ensures CacheKey(kind1, city1) == CacheKey(kind2, city2) <==> kind1 == kind2 && city1 == city2
  {
    var k1, k2 := CacheKey(kind1, city1), CacheKey(kind2, city2);
    if kind1 != kind2 {
      assert k1[0] != k2[0];
    } else if k1 == k2 {
      assert city1 == k1[|KeyPrefix(kind1)|..];
    }
  }

  // ---------------------------------------------------------------- messages

  const EmptyCityMessage: string := "Please enter a city name"
  const InvalidKeyMessage: string := "Invalid API key"
  /** Spelled as two literals; the concatenation is exactly the source's message text. */
  const NotFoundMessage: string := "City not found." + " Please try another location."
  /** The phrase the query's retry predicate looks for. */
  const RateLimitMarker: string := "API rate limit"
  /** What follows the marker up to the budget in parentheses, spelled as two literals whose
      concatenation is exactly the source's text. */
  const RateLimitWait: string := " exceeded." + " Please wait a moment and try again. "

  function Budget(kind: Endpoint): nat {
    match kind
    case Weather => CallsPerMinute
    case Forecast => ForecastCallsPerMinute
  }

  function BudgetUnit(kind: Endpoint): string {
    match kind
    case Weather => "calls"
    case Forecast => "forecasts"
  }

  /** `(<budget> <unit> per minute allowed)`. */
  function BudgetNote(kind: Endpoint): string {
    "(" + Decimal.Show(Budget(kind)) + " " + BudgetUnit(kind) + " per minute allowed)"
  }

  /** The 429 message, naming the endpoint's per-minute budget. */
  function RateLimitMessage(kind: Endpoint): (m: string)
    ensures |m| > |RateLimitMarker| && m[..|RateLimitMarker|] == RateLimitMarker
  {
    RateLimitMarker + (RateLimitWait + BudgetNote(kind))
  }

  // Each message below spells exactly the source's message text; the longer ones are
  // written as concatenations of shorter literals, which the verifier handles more easily.
  const PleaseTryAgain: string := " Please try again."
  const WeatherFailedMessage: string := "Failed to fetch weather data." + PleaseTryAgain
  const ForecastFailedMessage: string := "Failed to fetch forecast data." + PleaseTryAgain

  function GenericMessage(kind: Endpoint): string {
    match kind
    case Weather => WeatherFailedMessage
    case Forecast => ForecastFailedMessage
  }

  /** Why the `try` block failed: the request failed, or it resolved with an empty body. */
  datatype Failure = Fetch(error: FetchError) | NoData

  /** The `catch` block: statuses 401, 404 and 429 of an HTTP error are named; everything else,
      the empty body included, is the endpoint's generic message. */
  function Classify(kind: Endpoint, f: Failure): (m: string)
    ensures f == Fetch(HttpError(401)) ==> m == InvalidKeyMessage
    ensures f == Fetch(HttpError(404)) ==> m == NotFoundMessage
    ensures f == Fetch(HttpError(429)) ==> m == RateLimitMessage(kind)
    ensures !(f.Fetch? && f.error.HttpError? && f.error.status in {401, 404, 429}) ==> m == GenericMessage(kind)
  {
    match f
    case Fetch(HttpError(status)) =>
      if status == 401 then InvalidKeyMessage
      else if status == 404 then NotFoundMessage
      else if status == 429 then RateLimitMessage(kind)
      else GenericMessage(kind)
    case _ => GenericMessage(kind)
  }

  /** The messages a call for `kind` can throw. */
  predicate IsGatewayMessage(kind: Endpoint, m: string) {
    m in {EmptyCityMessage, InvalidKeyMessage, NotFoundMessage, RateLimitMessage(kind), GenericMessage(kind)}
  }

  /** The rate-limit marker appears in a classified message exactly when the provider
      answered 429. */
  lemma RateLimitDetectable(kind: Endpoint, f: Failure)
    ensures Strings.Contains(Classify(kind, f), RateLimitMarker) <==> f == Fetch(HttpError(429))
  {
    if f == Fetch(HttpError(429)) {
      Strings.PrefixContained(RateLimitMarker, RateLimitWait + BudgetNote(kind));
    } else {
      UnmarkedMessages();
      assert Classify(kind, f) in {InvalidKeyMessage, NotFoundMessage, GenericMessage(kind)};
    }
  }

  /** The 401, 404 and generic messages lack the letter 'm', so none carries the marker. */
  lemma UnmarkedMessages()
    ensures !Strings.Contains(InvalidKeyMessage, RateLimitMarker)
    ensures !Strings.Contains(NotFoundMessage, RateLimitMarker)
    ensures !Strings.Contains(WeatherFailedMessage, RateLimitMarker)
    ensures !Strings.Contains(ForecastFailedMessage, RateLimitMarker)
  {
    InvalidKeyUnmarked();
    NotFoundUnmarked();
    FailedUnmarked();
  }

  lemma InvalidKeyUnmarked()
    ensures !Strings.Contains(InvalidKeyMessage, RateLimitMarker)
  {
    assert 'm' !in InvalidKeyMessage;
    Unmarked(InvalidKeyMessage);
  }

  lemma NotFoundUnmarked()
    ensures !Strings.Contains(NotFoundMessage, RateLimitMarker)
  {
    assert 'm' !in "City not found.";
    assert 'm' !in " Please try another location.";
    Unmarked(NotFoundMessage);
  }

  lemma FailedUnmarked()
    ensures !Strings.Contains(WeatherFailedMessage, RateLimitMarker)
    ensures !Strings.Contains(ForecastFailedMessage, RateLimitMarker)
  {
    assert 'm' !in PleaseTryAgain;
    assert 'm' !in "Failed to fetch weather data.";
    Unmarked(WeatherFailedMessage);
    assert 'm' !in "Failed to fetch forecast data.";
    Unmarked(ForecastFailedMessage);
  }

  lemma Unmarked(m: string)
    requires 'm' !in m
    ensures !Strings.Contains(m, RateLimitMarker)
  {
    assert RateLimitMarker[11] == 'm';
    Strings.AbsentCharNotContained(m, RateLimitMarker, 'm');
  }

  /** A classified failure never reads like the empty-city rejection: its first letter differs. */
  lemma ClassifiedNotEmptyCity(kind: Endpoint, f: Failure)
    ensures Classify(kind, f) != EmptyCityMessage
  {
    var m := Classify(kind, f);
    var r := RateLimitMessage(kind);
    assert r[0] == r[..|RateLimitMarker|][0] == 'A';
    assert WeatherFailedMessage[0] == ForecastFailedMessage[0] == 'F';
    assert GenericMessage(kind)[0] == 'F';
    assert m == InvalidKeyMessage || m == NotFoundMessage || m == r || m == GenericMessage(kind);
    assert InvalidKeyMessage[0] == 'I' && NotFoundMessage[0] == 'C' && EmptyCityMessage[0] == 'P';
    assert m[0] != EmptyCityMessage[0];
  }

  lemma ClassifiedNeverEmptyCity(kind: Endpoint)
    ensures forall f :: Classify(kind, f) != EmptyCityMessage
  {
    forall f {
      ClassifiedNotEmptyCity(kind, f);
    }
  }

  /** The empty-city message does not carry the rate-limit marker. */
  lemma EmptyCityNotRateLimit()
    ensures !Strings.Contains(EmptyCityMessage, RateLimitMarker)
  {
    assert 'A' in RateLimitMarker;
    assert 'A' !in EmptyCityMessage;
    Strings.AbsentCharNotContained(EmptyCityMessage, RateLimitMarker, 'A');
  }

  /** The current-conditions 429 message states the budget text `(60 calls per minute allowed)`,
      written here in the pieces the message is assembled from. */
  lemma WeatherRateLimitBudget()
    ensures Strings.Contains(RateLimitMessage(Weather), "(" + "60" + " " + "calls" + " per minute allowed)")
  {
    assert Decimal.Show(6) == "6";
    assert Decimal.Show(CallsPerMinute) == "60";
    assert RateLimitMessage(Weather) == (RateLimitMarker + RateLimitWait) + BudgetNote(Weather);
    Strings.SuffixContained(RateLimitMarker + RateLimitWait, BudgetNote(Weather));
  }

  /** The forecast 429 message states the budget text `(5 forecasts per minute allowed)`. */
  lemma ForecastRateLimitBudget()
    ensures Strings.Contains(RateLimitMessage(Forecast), "(" + "5" + " " + "forecasts" + " per minute allowed)")
  {
    assert Decimal.Show(ForecastCallsPerMinute) == "5";
    assert RateLimitMessage(Forecast) == (RateLimitMarker + RateLimitWait) + BudgetNote(Forecast);
    Strings.SuffixContained(RateLimitMarker + RateLimitWait, BudgetNote(Forecast));
  }

  /** The two 429 messages state different budgets, so they differ. */
  lemma RateLimitMessagesDiffer()
    ensures RateLimitMessage(Weather) != RateLimitMessage(Forecast)
  {
    var w, f := RateLimitMessage(Weather), RateLimitMessage(Forecast);
    var n := |RateLimitMarker + RateLimitWait| + 1;
    assert Decimal.Show(60) == "60";
    assert Decimal.Show(5) == "5";
    assert w[n + 1] == '0';
    assert f[n + 1] == ' ';
  }

  // ---------------------------------------------------------------- the gateway call

  /** One gateway call: its value or thrown message, the cache afterwards, fetcher invocations. */
  datatype Call<B> = Call(result: Result<B, string>, store: Store<Response<B>>, fetches: nat)

  /** `getWeatherData(city)` (kind `Weather`) or `getForecastData(city)` (kind `Forecast`) at
      time `now`, with `fetcher` standing for the HTTP request to that endpoint. Only the
      empty string is rejected: a city of blanks goes through the cache and the fetcher. */
  function GetData<B>(kind: Endpoint, city: string, store: Store<Response<B>>, now: int,
                      fetcher: Fetched<Response<B>>): (c: Call<B>)
    ensures city == "" ==> c == Call(Err(EmptyCityMessage), store, 0)
    ensures c.result.Err? ==> IsGatewayMessage(kind, c.result.error)
    ensures (c.result.Err? && c.result.error == EmptyCityMessage) <==> city == ""
    ensures c.fetches <= 1
    ensures forall k :: k != CacheKey(kind, city) ==>
              (k in c.store <==> k in store) && (k in store ==> c.store[k] == store[k])
  {
    if city == "" then
      Call(Err(EmptyCityMessage), store, 0)
    else
      var step := FetchWithCache(store, CacheKey(kind, city), now, fetcher);
      var result :=
        match step.result
        case Err(e) => Err(Classify(kind, Fetch(e)))
        case Ok(response) =>
          if response.data.None? then Err(Classify(kind, NoData)) else Ok(response.data.value);
      ClassifiedNeverEmptyCity(kind);
      Call(result, step.store, step.fetches)
  }

  /** A valid entry answers the call without a fetch and without touching the cache. A cached
      empty body keeps yielding the generic message until the entry lapses. */
  lemma GetDataHit<B>(kind: Endpoint, city: string, store: Store<Response<B>>, now: int,
                      fetcher: Fetched<Response<B>>)
    requires city != "" && IsCacheValid(Lookup(store, CacheKey(kind, city)), now)
    ensures var c := GetData(kind, city, store, now, fetcher);
            var cached := store[CacheKey(kind, city)].data.data;
            && c.fetches == 0
            && c.store == store
            && (cached.Some? ==> c.result == Ok(cached.value))
            && (cached.None? ==> c.result == Err(GenericMessage(kind)))
  {
  }

  /** A miss fetches exactly once. A rejected fetch leaves the cache as it was and throws the
      classified message; a resolved fetch is stored under the key with its settle time even
      when its body is empty, in which case the call throws the generic message. */
  lemma GetDataMiss<B>(kind: Endpoint, city: string, store: Store<Response<B>>, now: int,
                       fetcher: Fetched<Response<B>>)
    requires city != "" && !IsCacheValid(Lookup(store, CacheKey(kind, city)), now)
    ensures var c := GetData(kind, city, store, now, fetcher);
            && c.fetches == 1
            && (fetcher.Rejected? ==>
                  c.store == store && c.result == Err(Classify(kind, Fetch(fetcher.error))))
            && (fetcher.Resolved? ==>
                  c.store == store[CacheKey(kind, city) := Entry(fetcher.value, fetcher.settledAt)])
            && (fetcher.Resolved? && fetcher.value.data.Some? ==> c.result == Ok(fetcher.value.data.value))
            && (fetcher.Resolved? && fetcher.value.data.None? ==> c.result == Err(GenericMessage(kind)))
  {
  }

  /** A call for one endpoint never changes what the cache holds for the other endpoint, for
      any city: populating one never satisfies the other. */
  lemma OtherEndpointUntouched<B>(kind: Endpoint, city: string, store: Store<Response<B>>, now: int,
                                  fetcher: Fetched<Response<B>>, other: Endpoint, otherCity: string)
    requires other != kind
    ensures var key := CacheKey(other, otherCity);
            Lookup(GetData(kind, city, store, now, fetcher).store, key) == Lookup(store, key)
  {
    CacheKeysDistinct(kind, city, other, otherCity);
  }

  /** A call looks at and writes only its own key: two caches that agree there give the same
      result, the same number of fetches, and agree there afterwards. */
  lemma OwnEntryDecides<B>(kind: Endpoint, city: string, s1: Store<Response<B>>, s2: Store<Response<B>>,
                           now: int, fetcher: Fetched<Response<B>>)
    requires Lookup(s1, CacheKey(kind, city)) == Lookup(s2, CacheKey(kind, city))
    ensures var c1, c2 := GetData(kind, city, s1, now, fetcher), GetData(kind, city, s2, now, fetcher);
            && c1.result == c2.result
            && c1.fetches == c2.fetches
            && Lookup(c1.store, CacheKey(kind, city)) == Lookup(c2.store, CacheKey(kind, city))
  {
  }

  /** A call leaves every other key's lookup as it was. */
  lemma GetDataFrame<B>(kind: Endpoint, city: string, store: Store<Response<B>>, now: int,
                        fetcher: Fetched<Response<B>>)
    ensures var c := GetData(kind, city, store, now, fetcher);
            forall k :: k != CacheKey(kind, city) ==> Lookup(c.store, k) == Lookup(store, k)
  {
    var c := GetData(kind, city, store, now, fetcher);
    forall k | k != CacheKey(kind, city)
      ensures Lookup(c.store, k) == Lookup(store, k)
    {
      assert k in c.store <==> k in store;
    }
  }

  /** The current-conditions and forecast calls for a city do not interfere: running them in
      either order gives the same results and the same final cache. */
  lemma EndpointsCommute<B>(city: string, store: Store<Response<B>>, now: int,
                            weather: Fetched<Response<B>>, forecast: Fetched<Response<B>>)
    ensures var w1 := GetData(Weather, city, store, now, weather);
            var f1 := GetData(Forecast, city, w1.store, now, forecast);
            var f2 := GetData(Forecast, city, store, now, forecast);
            var w2 := GetData(Weather, city, f2.store, now, weather);
            && w1.result == w2.result
            && f1.result == f2.result
            && f1.store == w2.store
  {
    CacheKeysDistinct(Weather, city, Forecast, city);
    var kw, kf := CacheKey(Weather, city), CacheKey(Forecast, city);
    var w1 := GetData(Weather, city, store, now, weather);
    var f1 := GetData(Forecast, city, w1.store, now, forecast);
    var f2 := GetData(Forecast, city, store, now, forecast);
    var w2 := GetData(Weather, city, f2.store, now, weather);
    GetDataFrame(Weather, city, store, now, weather);
    GetDataFrame(Forecast, city, w1.store, now, forecast);
    GetDataFrame(Forecast, city, store, now, forecast);
    GetDataFrame(Weather, city, f2.store, now, weather);
    OwnEntryDecides(Weather, city, store, f2.store, now, weather);
    OwnEntryDecides(Forecast, city, store, w1.store, now, forecast);
    DisjointWritesCommute(store, w1.store, f1.store, f2.store, w2.store, kw, kf);
  }

  /** Only the empty string is rejected: a city made of blanks reaches the cache, and on a
      cold cache the fetcher, like any other name. */
  lemma BlankCityIsFetched<B>(kind: Endpoint, city: string, store: Store<Response<B>>, now: int,
                              fetcher: Fetched<Response<B>>)
    requires city != "" && Strings.AllSpace(city)
    requires CacheKey(kind, city) !in store
    ensures var c := GetData(kind, city, store, now, fetcher);
            c.fetches == 1 && c.result != Err(EmptyCityMessage)
  {
  }
}
