# Weather cache and portfolio filter of the FinAI LLC website

This project models the two pieces of logic in the FinAI LLC marketing website.

- **The weather service** (`lib/weatherService.ts`). It is a keyed cache from location strings to `{data, timestamp}` entries. An entry lives for ten minutes. The cache sits in front of a weather provider; the shipped provider is a random generator of weather data.
- **The portfolio filter** (`components/Portfolio.tsx`). It is the selection behind the portfolio tabs: every project for "All", otherwise only the projects of the chosen category.

Modules:

- `WeatherTypes` (`weather_types.dfy`): the `CurrentWeather`, `WeatherForecast` and `WeatherData` records. `Result` stands for a settled promise: a value, or the message of the `Error` it was rejected with.
- `MockWeather` (`mock_weather.dfy`): the generator `fetchMockWeatherData`.
  - `Math.random()` is an injected sequence of draws, each a real in [0, 1). `Math.floor(Math.random() * n)` is `RandomInt`.
  - One call takes 49 draws, in JavaScript's evaluation order. The current conditions take seven: condition, temp, humidity, wind, visibility, feels-like, UV. Each of the seven days takes six: condition, high, low gap, precipitation, wind, humidity.
  - The date library and the clock are an injected `Calendar`.
  - `MockSnapshot` is the generator as a function. `FetchMockWeatherData` is the source's loop, and it is proved to compute `MockSnapshot`.
- `WeatherCache` (`weather_cache.dfy`): the cache.
  - `Date.now()` is the parameter `now`.
  - The provider is the class `Provider`. What it returns is injected: `answer(location, k)` is the result of its k-th call, failures included. The provider also keeps a `log` of the locations it was asked for, so "the provider was not called" is a statement about that log.
  - `Lookup` specifies one `getWeatherData` call and `Serve` specifies a run of them, both on plain values. The methods of the `WeatherService` class are proved to follow `Lookup` and `Serve` exactly.
  - `MockAnswer` is the shipped provider, the generator, seen as an `answer`.
  - `ServiceRegistry` holds the lazily created single instance behind `getInstance`.
- `Portfolio` (`portfolio.dfy`): the project table, the category list and the filter.

Choices where the code leaves room:

- **Provider failure.** A failure is propagated, and nothing is stored. The code has no fallback to a stale entry.
- **Day labels.** The seven labels are fixed: "Today", "Tomorrow", "Wednesday", …, "Sunday". The branch `i < days.length` is always taken, so labels from two days on are not the real weekday names. The model follows the code.
- **Forecast humidity.** The code draws it from [40, 79]. The model follows the code.

## Model

| member | source | states |
|---|---|---|
| `MockWeather.RandomInt` | lib/weatherService.ts:90-99 | `Math.floor(x * n)` for a draw `x` in [0, 1) is an integer in [0, n) |
| `MockWeather.ContainsIff` | lib/weatherService.ts:85 | the front-to-back search behind `includes` succeeds exactly when the pattern occurs in the string at some index |
| `MockWeather.BaseTemp` | lib/weatherService.ts:85 | the base temperature is 45 exactly when the lower-cased location contains "pittsburgh" at some index; otherwise it is 50 |
| `MockWeather.PittsburghHasLowerBase` | lib/weatherService.ts:85 | "Pittsburgh, PA" and "Downtown PITTSBURGH" both get base 45: the match ignores case and position |
| `MockWeather.ToLower` | lib/weatherService.ts:85 | `toLowerCase()` leaves no upper-case ASCII letter |
| `MockWeather.ToLowerIdempotent` | lib/weatherService.ts:85 | lower-casing a lower-cased location changes nothing |
| `MockWeather.CaseIsIgnored` | lib/weatherService.ts:85 | two locations that differ only in the case of ASCII letters lower to the same string and get the same base temperature |
| `MockWeather.PairedIconIsCategory` | lib/weatherService.ts:86-87 | a condition and an icon taken from the same index are one of the 5 labels and one of the 5 icon categories |
| `MockWeather.CurrentFrom` | lib/weatherService.ts:89-100 | current temp is in [base-5, base+4], humidity in [50, 79], wind in [5, 19], visibility in [8, 12], feels-like in [base-4, base+3], UV in [1, 10]; condition and icon come from one index |
| `MockWeather.ForecastDay` | lib/weatherService.ts:110-124 | a day's high is in [base-5, base+9], high minus low is in [10, 19] (so low < high), precipitation is in [0, 99], wind in [3, 14], humidity in [40, 79]; condition and icon come from one index; day `i` < 7 gets the fixed label `Days[i]`; the date is the calendar's date for offset `i` |
| `MockWeather.MockSnapshot` | lib/weatherService.ts:81-133 | every generated snapshot names the requested location, has exactly 7 forecast days with labels `Days[0..7]` and calendar dates, and all its fields are in range |
| `MockWeather.FetchMockWeatherData` | lib/weatherService.ts:81-133 | the loop that pushes one forecast per day returns `MockSnapshot(location, draws, calendar)`, which is well formed |
| `WeatherCache.Lookup` | lib/weatherService.ts:53-75 | a fresh entry (age strictly below 600000 ms; age 600000 is stale) is returned without a provider call and the cache is unchanged; otherwise the provider is called once, for this key; on success the entry becomes `(data, now)` and the data is returned; on failure the lookup fails with "Failed to fetch weather data" and the cache is unchanged; no other key changes; a lookup succeeds exactly when it leaves a fresh entry behind |
| `WeatherCache.Serve` | lib/weatherService.ts:138-140 | a run of lookups gives one result per request, calls the provider at most once per request, and keeps the provider's earlier calls |
| `WeatherCache.ServeAppend` | lib/weatherService.ts:138-140 | running `a + b` is running `a` and then `b` from the state `a` leaves |
| `WeatherCache.ServeAt` | lib/weatherService.ts:138-140 | the i-th result of a run is the lookup of the i-th request in the state the first i requests leave |
| `WeatherCache.HitsAreServedFromCache` | lib/weatherService.ts:55-58 | requests for a key that is fresh at each request's time all return the cached data, with no provider call and no cache change |
| `WeatherCache.OneFetchWithinLifetime` | lib/weatherService.ts:55-70 | after a successful fetch at `t0`, any number of requests for that key less than 600000 ms after `t0` return the same data, with one provider call in all |
| `WeatherCache.ExpiryRefetches` | lib/weatherService.ts:55-70 | a cold key requested twice, 600000 ms or more apart, costs two provider calls; when the second call succeeds, the stored entry is the second result, stamped at the later time |
| `WeatherCache.OtherKeysUntouched` | lib/weatherService.ts:55-68 | requests that never name a key leave that key's entry, and so its freshness, as it was |
| `WeatherCache.FailureIsNotCached` | lib/weatherService.ts:60-74 | after a provider failure on a stale key, asking again calls the provider a second time and returns its new answer, not a cached error |
| `WeatherCache.ClearedCacheMisses` | lib/weatherService.ts:146-148 | on the emptied cache, the next lookup of any key calls the provider |
| `WeatherCache.Collect` | lib/weatherService.ts:140 | `Promise.all` succeeds exactly when every lookup succeeded, and then returns their values in input order; otherwise it rejects with the message of a failed lookup |
| `WeatherCache.ServeFailuresAreFetchFailed` | lib/weatherService.ts:71-74 | every failed lookup in a run rejects with "Failed to fetch weather data" |
| `WeatherCache.ServeKeepsEntriesMatched` | lib/weatherService.ts:62-70 | if the provider's data names the location it was asked for, every cache entry holds data for its own key, and every successful result names its requested location, across any run |
| `WeatherCache.DefaultLocationHasPittsburghBase` | lib/weatherService.ts:53 | the default location `'Pittsburgh, PA'` gets the generator's base temperature 45 |
| `WeatherCache.MockAnswer` | lib/weatherService.ts:62 | the shipped provider never fails, returns well-formed data for the requested location, and so names the location it was asked for |
| `WeatherCache.Provider.constructor` | lib/weatherService.ts:62 | a provider with the given answers, not yet called |
| `WeatherCache.Provider.Fetch` | lib/weatherService.ts:62 | a call returns the injected answer for this call and appends the location to the call log |
| `WeatherCache.WeatherService.constructor` | lib/weatherService.ts:36 | a new service starts with an empty cache |
| `WeatherCache.WeatherService.GetWeatherData` | lib/weatherService.ts:53-75 | the result, the new cache and the provider's calls are exactly those of `Lookup` |
| `WeatherCache.WeatherService.GetMultiLocationWeather` | lib/weatherService.ts:138-141 | the lookups run in input order; the cache and the provider's calls are those of `Serve`; the result is `Collect` of the lookups' results |
| `WeatherCache.WeatherService.ClearCache` | lib/weatherService.ts:146-148 | the cache is empty afterwards |
| `WeatherCache.ServiceRegistry.constructor` | lib/weatherService.ts:35 | no instance exists yet |
| `WeatherCache.ServiceRegistry.GetInstance` | lib/weatherService.ts:41-46 | the first call creates a new service with an empty cache; every later call returns that same object |
| `Portfolio.FilterByCategory` | components/Portfolio.tsx:77 | the filter keeps only projects of the category (soundness) and keeps every project of it (completeness) |
| `Portfolio.FilteredProjects` | components/Portfolio.tsx:75-77 | "All" gives the table unchanged; any other category gives exactly the table's projects of that category; either way the result is a subsequence of the table |
| `Portfolio.IdentityIsSubsequence` | components/Portfolio.tsx:75-76 | the unfiltered table is a subsequence of itself |
| `Portfolio.FilterIsSubsequence` | components/Portfolio.tsx:77 | the filtered list keeps the table's relative order: it embeds into the table at strictly increasing positions |
| `Portfolio.SubsequenceKeepsDistinct` | components/Portfolio.tsx:77 | a subsequence of a list without duplicates has no duplicates |
| `Portfolio.ProjectsDistinct` | components/Portfolio.tsx:9-70 | the table lists no project twice |
| `Portfolio.FilteredProjectsDistinct` | components/Portfolio.tsx:9-77 | no tab lists a project twice |
| `Portfolio.FilterMultiplicity` | components/Portfolio.tsx:77 | the filter keeps every copy of a matching project and no copy of any other |
| `Portfolio.FilterIdempotent` | components/Portfolio.tsx:77 | filtering a filtered list by the same category changes nothing |
| `Portfolio.FilteredProjectsIdempotent` | components/Portfolio.tsx:75-77 | selecting the same tab on its own result gives the same list |
| `Portfolio.CountOnTable` | components/Portfolio.tsx:9-77 | counted project by project, the shipped table has 4 projects of "Web Application", 1 of "Website", 1 of "Mobile App" and none of any other category |
| `Portfolio.ShippedCounts` | components/Portfolio.tsx:9-77 | on the shipped table, "Web Application" lists 4 projects, "Website" 1, "Mobile App" 1 and "All" 6 |
| `Portfolio.EveryProjectIsCategorised` | components/Portfolio.tsx:9-72 | every project's category is one of the three categories other than "All" |
| `Portfolio.PartitionByCategories` | components/Portfolio.tsx:75-77 | on any list whose projects all carry one of three distinct categories, the three filtered lists together are the list, as a multiset |
| `Portfolio.CategoriesPartitionProjects` | components/Portfolio.tsx:9-77 | the three non-"All" lists together hold each project exactly as often as the table does (a partition as multisets), and their lengths sum to the table's |

## Left out

- The 200 ms `setTimeout` wait in the generator is not modelled: the fetch is synchronous. For the same reason, the entry is stamped with the time of the call. The source reads `Date.now()` a second time after the fetch returns.
- Date formatting is not modelled. The ISO date of each forecast day, the weekday names and the `lastUpdated` stamp come from the injected `Calendar`, because they depend on the platform clock and time zone.
- `Promise.all` concurrency is not modelled; the lookups run one after the other, in input order. In the source, every lookup checks the cache before any fetch returns. So a location listed twice in one `getMultiLocationWeather` call is fetched twice there, while the model serves the second request from the cache.
- `Date.now()` is a parameter, and the model does not assume it increases.
- The default argument `'Pittsburgh, PA'` of `getWeatherData` is the constant `DefaultLocation`, but `GetWeatherData` has no default argument: a caller passes the location explicitly.
- `console.error` logging on a failed fetch is not modelled: it is I/O.
- The original error thrown by the provider is dropped, as in the source; only the fixed message "Failed to fetch weather data" reaches the caller.
- `MockWeather.BaseTemp`: `toLowerCase` is modelled for ASCII letters only, because Unicode case mapping is not available.
- `MockWeather.RandomInt`: floating-point rounding of `Math.random() * n` is not modelled; the product is an exact real.
- The static field `instance` behind `getInstance` is the field of one `ServiceRegistry` object. The default export is then the service that registry hands out.
- The commented-out `fetchRealWeatherData` is not modelled: it is dead code.
- The JSX of `components/Portfolio.tsx` is not modelled, and neither is the `useState` setter; only the data and the filter are.
- `components/Weather.tsx`, `components/WeatherWidget.tsx`, `components/TimeDisplay.tsx` and `components/Contact.tsx` are not part of this model. They are browser I/O, timers, floating-point unit conversion and UI glue.
- `components/About.tsx`, `components/Services.tsx`, `components/Footer.tsx`, `components/Hero.tsx`, `data/siteConfig.js`, `app/layout.tsx` and `app/page.tsx` are not part of this model. They are static content and layout.
