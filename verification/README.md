# Weather dashboard core, modelled in Dafny

The dashboard looks up a city's current conditions and its short-term forecast from a remote weather provider. This project models the logic behind that:

- **Response cache** (`cache.dfy`, module `Cache`). A map from string keys to entries stamped with the time they were stored. An entry is valid while it is less than 60 000 ms old. A cached fetch returns a valid entry without calling the fetcher. On a miss it calls the fetcher once and stores only a resolved value.
- **Provider gateway** (`weather_api.dfy`, module `WeatherApi`). This is `getWeatherData` and `getForecastData`, written as one function `GetData` with an `Endpoint` argument. It rejects the empty city and builds the key `weather:<city>` or `forecast:<city>`. It treats an empty body as a failure and turns every failure into a fixed message. The status codes 401, 404 and 429 have their own messages; everything else gets the endpoint's generic message. The 429 message names the endpoint's per-minute budget: 60 for current conditions, 5 for the forecast.
- **Application decisions** (`app.dfy`, module `App`). Queries are enabled only for a non-empty city. The weather query's retry predicate never retries a rate-limit message. The two `select` mappers shape bodies for display; the forecast keeps its first eight entries. The search bar submits the trimmed text. The initial dark-mode flag is resolved here.
- **"Time ago" label** (`last_updated.dfy`, module `LastUpdated`). Elapsed milliseconds become "Just now", "N minute(s) ago" or "N hour(s) ago".
- **Temperature unit** (`temperature.dfy`, module `Temperature`). The Celsius flag, the conversion `t * 9 / 5 + 32` over exact reals, the symbol, the toggle, and the initial flag read from its saved text.
- **Supporting modules**: `Wrappers` (`Option`, `Result`), `Decimal` (numerals as `${n}` prints them for the counts that occur, with their parse) and `Strings` (`includes`, and `trim` with JavaScript's whitespace set).

Inputs the browser would supply are parameters:

- Clock readings are `now: int` in milliseconds.
- The fetcher's behaviour is a `Fetched` value. It resolves with a response and the clock reading when it settled, or it rejects with an HTTP status or a network error.
- Saved preferences are `Option<string>`. Window presence and the system colour scheme are booleans.

Every operation is a pure function. Converting a temperature for display therefore cannot change the Celsius value held in the cache.

`fetchWithCache` reads the clock twice. It checks validity before the request and stamps the entry after the request settles. The model keeps the two readings apart: `now` and `settledAt`.

Two behaviours of the code are easy to miss, and the model keeps both:

- Only the empty string is rejected as a city. A city made only of blanks goes through the cache and the fetcher (`WeatherApi.BlankCityIsFetched`). Trimming happens only in the search bar.
- A response with an empty body counts as a successful fetch, so the cache stores it before the gateway checks the body. For the next minute, calls for that key throw the generic message without a new request (`WeatherApi.GetDataMiss`, `WeatherApi.GetDataHit`). Only a rejected request leaves the cache untouched.

## Model

| member | source | states |
|---|---|---|
| `Cache.IsCacheValid` | src/services/weatherApi.ts:20-23 | a missing entry is never valid; a present one is valid exactly when less than 60 000 ms have passed since its timestamp |
| `Cache.ValidityWindow` | src/services/weatherApi.ts:11 | validity is a window: valid at the moment of storing, still valid 59 999 ms later, lapsed at exactly 60 000 ms, and never valid again once lapsed |
| `Cache.FetchWithCache` | src/services/weatherApi.ts:72-84 | a valid hit returns the cached data with zero fetches and the cache unchanged; a miss fetches exactly once; a resolved value is returned and stored under the key with its settle time; a rejection is passed on and leaves the cache exactly as it was; no other key changes |
| `Cache.HitIgnoresFetcher` | src/services/weatherApi.ts:76-79 | on a valid hit the outcome does not depend on the fetcher at all |
| `Cache.SecondCallIsHit` | src/services/weatherApi.ts:76-83 | after a miss whose fetch settled at t, a second call before t + 60 000 makes no fetch, leaves the cache as it is, and returns the same data |
| `WeatherApi.CacheKey` | src/services/weatherApi.ts:91 | the key is the endpoint prefix followed by the city verbatim |
| `WeatherApi.CacheKeysDistinct` | src/services/weatherApi.ts:128 | two keys are equal exactly when endpoint and city are both equal, so `weather:` and `forecast:` keys never collide |
| `WeatherApi.RateLimitMessage` | src/services/weatherApi.ts:116 | the 429 message begins with "API rate limit" |
| `WeatherApi.WeatherRateLimitBudget` | src/services/weatherApi.ts:115-116 | the current-conditions 429 message contains the budget text "(60 calls per minute allowed)", with 60 rendered from the configured constant |
| `WeatherApi.ForecastRateLimitBudget` | src/services/weatherApi.ts:152-153 | the forecast 429 message contains the budget text "(5 forecasts per minute allowed)", with 5 rendered from the configured constant |
| `WeatherApi.RateLimitMessagesDiffer` | src/services/weatherApi.ts:153 | the weather (60 calls) and forecast (5 forecasts) rate-limit messages are different texts |
| `WeatherApi.Classify` | src/services/weatherApi.ts:109-120 | 401 gives "Invalid API key", 404 the city-not-found message, 429 the endpoint's rate-limit message; any other status, a network error or an empty body gives the endpoint's generic message |
| `WeatherApi.RateLimitDetectable` | src/services/weatherApi.ts:110-119 | a classified message contains "API rate limit" if and only if the provider answered 429 |
| `WeatherApi.ClassifiedNotEmptyCity` | src/services/weatherApi.ts:87-89 | no classified failure message equals the empty-city message |
| `WeatherApi.EmptyCityNotRateLimit` | src/services/weatherApi.ts:88 | the empty-city message does not contain "API rate limit" |
| `WeatherApi.GetData` | src/services/weatherApi.ts:86-121 | the empty city throws "Please enter a city name" with no fetch and the cache untouched, and it is the only input that throws that message; every thrown message is one of the five fixed ones; at most one fetch; no key except the call's own changes |
| `WeatherApi.GetDataHit` | src/services/weatherApi.ts:93-108 | a valid entry answers with no fetch and the cache unchanged: its body if present, otherwise the generic message |
| `WeatherApi.GetDataMiss` | src/services/weatherApi.ts:93-120 | a miss fetches once; a rejection throws the classified message and leaves the cache as it was; a resolved response is stored even with an empty body, which then throws the generic message |
| `WeatherApi.OtherEndpointUntouched` | src/services/weatherApi.ts:123-131 | a call for one endpoint leaves the other endpoint's entry unchanged for every city, so populating one never satisfies the other |
| `WeatherApi.OwnEntryDecides` | src/services/weatherApi.ts:76-83 | two caches that agree at the call's key give the same result and fetch count, and still agree at that key afterwards |
| `WeatherApi.EndpointsCommute` | src/services/weatherApi.ts:91-102 | the weather and forecast calls for one city give the same results and final cache in either order |
| `WeatherApi.BlankCityIsFetched` | src/services/weatherApi.ts:87-91 | a non-empty city made only of blanks is not rejected; on a cold cache it reaches the fetcher |
| `App.QueryEnabled` | src/App.tsx:343 | a query is enabled exactly when the search city is non-empty |
| `App.RunQuery` | src/App.tsx:340-343 | for both queries, the weather one here and the forecast one at src/App.tsx:372-375: a disabled query makes no gateway call; an enabled one never ends in the empty-city rejection |
| `App.ShouldRetry` | src/App.tsx:360-365 | an `Error` whose message contains "API rate limit" is never retried, whatever the failure count; any other error is retried exactly while the failure count is below 2 |
| `App.RetryPolicyOnGatewayErrors` | src/App.tsx:360-364 | for a gateway message, a retry happens exactly when the status was not 429 and fewer than two failures were counted |
| `App.RetryBounded` | src/App.tsx:364 | a retry is only ever allowed at failure counts 0 and 1 |
| `App.HandleSubmit` | src/App.tsx:264-270 | something is submitted exactly when the trimmed text is non-empty, that is, when the text is not all blanks; then the trimmed text is submitted and the input cleared; otherwise nothing is submitted and the input stays as typed |
| `App.SubmittedCityIsQueried` | src/App.tsx:266-267 | a submitted city is non-empty, has no blank at either end, is its own trim, and occurs in the typed text, so both queries run for it |
| `App.InitialDarkMode` | src/App.tsx:307-317 | without a window the flag is off; a saved value wins and only the text "true" means on; with nothing saved the system preference decides |
| `App.ToggleDarkMode` | src/App.tsx:331-333 | toggling flips the flag |
| `App.DarkModeRoundTrip` | src/App.tsx:328 | the text saved for a flag reads back as that flag whatever the system preference; toggling twice restores it |
| `App.SelectWeather` | src/App.tsx:344-358 | a body without a `weather[0]` makes the mapper throw; otherwise every displayed field is the corresponding body field, the condition and icon come from `weather[0]`, and the timestamp is the clock reading |
| `App.SelectWeatherReadsOnlyCopiedFields` | src/App.tsx:344-358 | bodies that agree on the copied fields map alike: the country and later conditions are ignored |
| `App.MapPoints` | src/App.tsx:378-385 | the mapping succeeds exactly when every entry has a `weather[0]`; it keeps the length, and element i shows entry i field by field |
| `App.SelectForecast` | src/App.tsx:376-386 | the output has min(8, n) points for n entries; point i shows entry i field by field, so order is kept; it throws exactly when one of the first eight entries lacks `weather[0]` |
| `App.ForecastIgnoresLaterEntries` | src/App.tsx:378 | appending entries after the eighth, malformed ones included, changes nothing |
| `LastUpdated.FloorDiv` | src/hooks/useLastUpdated.ts:13 | the quotient is the floor of a over b |
| `LastUpdated.Bucket` | src/hooks/useLastUpdated.ts:7-23 | a null or zero timestamp gives the blank label; under 60 000 ms elapsed, including negative elapsed time, gives "Just now"; under an hour gives m minutes with 1 ≤ m ≤ 59 and m·60 000 ≤ elapsed < (m+1)·60 000; otherwise h ≥ 1 hours with h·3 600 000 ≤ elapsed < (h+1)·3 600 000 |
| `LastUpdated.SingularIffOne` | src/hooks/useLastUpdated.ts:19-22 | the singular "minute"/"hour" is used exactly when the count is 1 |
| `LastUpdated.Render` | src/hooks/useLastUpdated.ts:8-22 | the label is empty only for the blank bucket and is "Just now" only for the under-a-minute bucket |
| `LastUpdated.TimeAgoText` | src/hooks/useLastUpdated.ts:7-23 | the label is the empty string exactly when the timestamp is null or zero, which hides the card's "Updated" line (src/App.tsx:190); it is "Just now" exactly when a timestamp is present and under 60 000 ms have elapsed |
| `LastUpdated.RenderInjective` | src/hooks/useLastUpdated.ts:15-22 | different buckets or counts always give different label texts |
| `Decimal.Show` | src/hooks/useLastUpdated.ts:19 | a count is printed as a non-empty string of digits with no leading zero |
| `Decimal.ParseShow` | src/hooks/useLastUpdated.ts:19 | reading a printed count gives back the count |
| `Decimal.ShowPrefixUnique` | src/hooks/useLastUpdated.ts:22 | a printed count followed by a word can be split back into the count and the word |
| `Strings.Trim` | src/App.tsx:266 | the trimmed text is an infix of the input with only whitespace around it; it has no whitespace at either end; it is empty exactly when the input is all whitespace |
| `Strings.TrimStart` | src/App.tsx:266 | the result is a suffix of the input; the dropped prefix is whitespace; the result does not start with whitespace |
| `Strings.TrimEnd` | src/App.tsx:266 | the result is a prefix of the input; the dropped suffix is whitespace; the result does not end with whitespace |
| `Strings.TrimIdempotent` | src/App.tsx:267 | trimming the submitted text again changes nothing |
| `Temperature.Convert` | src/hooks/useTemperature.ts:22-24 | in Celsius the reading is shown as is; otherwise the shown value converts back exactly to the reading |
| `Temperature.ConvertFaithful` | src/hooks/useTemperature.ts:23 | conversion is strictly increasing and injective; in Fahrenheit its only fixed point is -40 |
| `Temperature.Symbol` | src/hooks/useTemperature.ts:34 | the symbol is "°C" exactly for Celsius and "°F" exactly for Fahrenheit |
| `Temperature.Toggle` | src/hooks/useTemperature.ts:26-28 | toggling flips the flag |
| `Temperature.ToggleTwice` | src/hooks/useTemperature.ts:26-28 | toggling twice restores the unit; toggling once changes the symbol |
| `Temperature.InitialUnit` | src/hooks/useTemperature.ts:13-16 | no saved text, or empty text, gives `initialUnit`; otherwise the result is a flag exactly when the text is "true" or "false" with only JSON whitespace (space, tab, line feed, carriage return) around it, and then it is that flag; any other text is not a readable flag |
| `Temperature.FlagsExclusive` | src/hooks/useTemperature.ts:15 | no saved text reads as both "true" and "false" |
| `Temperature.PaddedFlagRead` | src/hooks/useTemperature.ts:15 | a saved boolean surrounded by any JSON whitespace reads back as that boolean |
| `Temperature.DefaultIsCelsius` | src/hooks/useTemperature.ts:12-16 | with nothing saved, the default `initialUnit` that every `useTemperature()` call in src/App.tsx (lines 182, 230, 320) relies on gives Celsius |
| `Temperature.SavedUnitRoundTrip` | src/hooks/useTemperature.ts:18-20 | the text saved for a flag reads back as that flag whatever `initialUnit` is |

## Left out

- Rendering (JSX, the cards, the slider, the loading skeleton, the raw-HTML detail field) is presentational and not modelled.
- The HTTP client is not modelled. This covers URL building, `encodeURIComponent`, the API key and the `units=metric` parameter. A request is only its abstract outcome, a `Fetched` value.
- An HTTP error without a response and an error that is not an HTTP-client error are both `NetworkError`. The code treats them the same way.
- The query library's own behaviour is not modelled. This covers merging concurrent requests for one key, `staleTime`, refetch scheduling, the Try Again button's `refetch` calls, how the library counts failures before calling `retry`, and the default `retry: 1` the forecast query inherits. Only the values the code supplies are modelled: the `retry` predicate, `enabled` and the `select` mappers.
- Browser storage, `matchMedia`, `document.body.classList`, `setInterval` and the React state/effect lifecycles are side effects. The saved texts, window presence and colour-scheme preference become parameters, and so does the clock.
- Locale formatting (`formatTime`, `toLocaleTimeString`, `Intl.DateTimeFormat`) and display rounding (`Math.round`) depend on locale and floating point, so they are not modelled.
- Two fetches for one key that complete out of order are not modelled. That is interleaving of asynchronous calls, and the model runs calls one after another.
- Temperatures are exact reals, not IEEE doubles. Clock readings and provider times are integers.
- Temperature.InitialUnit: saved text that is not "true" or "false" surrounded by JSON whitespace gives `None`. `JSON.parse` would throw on such text when it is malformed, or return a non-boolean value such as a number, and neither case is modelled further. Starting from no saved text or a saved boolean, the hook saves only "true" or "false"; a non-boolean value it reads is written back unchanged until the first toggle.
- Strings are sequences of Unicode scalar values, not JavaScript's UTF-16 code units, so a city containing a lone surrogate cannot be written in the model. On well-formed text `trim` (every whitespace code point is in the Basic Multilingual Plane), `includes` and key equality agree with the source, so nothing in the core depends on the difference.
