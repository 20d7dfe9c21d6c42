# Weather dashboard store: a Dafny model

This project models the logic of a browser weather dashboard that tracks current conditions and forecasts for a handful of cities:

- **The weather store.** This is a Redux slice. It holds:
  - the tracked cities;
  - the selected forecast;
  - the favourite city names;
  - the temperature unit;
  - the status and error of the last "fetch current" action.

  It reads and writes the browser's local storage. The store's "fetch current" thunk has three steps. First it checks a per-query cache entry that stays fresh for 55 seconds. If the entry is missing or stale, it calls the weather service. On success it fills the cache.
- **The city detail modal's data shaping.** This covers the daily and hourly chart series, the unit-dependent temperature line and the hourly axis label.
- **The city card's display rules.** These are the temperature text, the icon URL and the favourite label.

Files and modules:

- `wrappers.dfy` (`Wrappers`): `Option` (JavaScript `null`) and `Result` (a fulfilled or rejected thunk).
- `text.dfy` (`Text`): ASCII lower-casing, `startsWith`, first-occurrence `replace`, and `slice`.
- `weather_data.dfy` (`WeatherData`): the records the service returns. Numeric readings are opaque `Reading`s holding only their printed text. Nothing computes with them.
- `weather_slice.dfy` (`WeatherSlice`): the store. The class `Store` has one field per piece of state, plus `storage` for local storage. The reducers and the thunk are methods that change those fields in place. `AddFav`, `RemoveFav`, `FetchCurrentFulfilled`, `RunFetchCurrent` and the two `Dispatch` methods are tied to the pure functions `Added`, `Without`, `FoldIn`, `FetchCurrentRun` and `FetchForecastRun`. The other reducers state their new fields directly. The lemmas prove properties of `Added`, `Without`, `FoldIn` and `FetchCurrentRun`; the properties of `FetchForecastRun` are in its own contract.
- `city_modal.dfy` (`CityModal`) and `city_card.dfy` (`CityCard`): functions and lemmas.

External inputs are parameters:

- **The clock.** The thunk reads the clock up to twice: before the freshness test (`now`), which happens only when an entry exists, and after the service answers (`later`). With no entry, `now` is unused. The cache entry is stamped with `later`.
- **The weather service.** It is a function `remote` from query to `Answer(body)` or `Failure(message)`. The thunk reports whether it called it.
- **Cache write failures.** A quota or serialisation failure of the cache write is the flag `fits`. The write swallows the failure.

Where the code and the design description of the system differ, the model follows the code:

- The cache prefix is `wa_cache_v1:`.
- `addFav` persists only when it adds a name.
- `setUnit` stores any string, not just "C" or "F".

## Model

| member | source | states |
|---|---|---|
| WeatherSlice.CacheKeyFor | src/store/weatherSlice.js:5-10 | the key is "wa_cache_v1:" followed by the query lower-cased position by position |
| WeatherSlice.CacheKeySameIff | src/store/weatherSlice.js:8-10 | two queries get the same cache key exactly when they differ only in ASCII letter case |
| WeatherSlice.CacheKeyNotPreference | src/store/weatherSlice.js:5-10 | no cache key equals "wa_unit" or "wa_favs" |
| WeatherSlice.ReadCache | src/utils/cache.js:4-6 | a read gives the stored entry, and absent when the key is missing |
| WeatherSlice.WriteCache | src/utils/cache.js:1-3 | a successful write stores the entry under its key only; a failed write is swallowed and leaves storage unchanged |
| WeatherSlice.RejectMessage | src/store/weatherSlice.js:22-24 | the rejection value is the error message, or "error" when the message is empty; it is never empty |
| WeatherSlice.FetchCurrentRun | src/store/weatherSlice.js:14-25 | the service is called exactly when no fresh entry exists. Without a call, the cached data is returned and storage is unchanged. With a call, the result succeeds exactly when the service answers; on success it is the service's body, written to the cache stamped with the later clock reading. A rejection is never empty and leaves storage unchanged |
| WeatherSlice.FetchCurrentFreshHit | src/store/weatherSlice.js:16-18 | an entry younger than 55000 ms is returned with no service call and no write |
| WeatherSlice.FetchCurrentMiss | src/store/weatherSlice.js:17-24 | on a missing entry or one 55000 ms old or more, the service is called. On success the body is returned and cached with the later clock reading (unless the write fails). On failure the thunk rejects with a non-empty message and storage is unchanged |
| WeatherSlice.FetchCurrentOnlyWritesItsKey | src/store/weatherSlice.js:16-21 | the thunk changes at most its own cache key; the unit, the favourites and other entries stay as they were |
| WeatherSlice.RepeatedFetchUsesCache | src/store/weatherSlice.js:12-26 | after a successful fetch that found no fresh entry, a fetch for the same query (up to letter case) within 55000 ms of the write makes no call and returns the same body; at 55000 ms or later it calls again |
| WeatherSlice.FetchForecastRun | src/store/weatherSlice.js:28-38 | the forecast thunk asks for the given days, or 7 when none are given, uses no cache, and rejects with a non-empty message on failure |
| WeatherSlice.Added | src/store/weatherSlice.js:57-62 | addFav leaves a list that already holds the name unchanged, and appends the name otherwise |
| WeatherSlice.AddedKeepsNoDuplicates | src/store/weatherSlice.js:57-62 | addFav keeps a list free of duplicates |
| WeatherSlice.Without | src/store/weatherSlice.js:63-66 | after removeFav the name is absent and every other name is present exactly when it was before |
| WeatherSlice.WithoutKeepsOrder | src/store/weatherSlice.js:64 | removeFav is a subsequence of the input (order kept) with exactly the name's occurrences deleted (multiset) |
| WeatherSlice.WithoutAt | src/store/weatherSlice.js:64 | in a duplicate-free list, removing the name at index k gives the list with position k closed up |
| WeatherSlice.WithoutAppended | src/store/weatherSlice.js:57-66 | removing a name just appended to a list without it gives that list back |
| WeatherSlice.WithoutKeepsNoDuplicates | src/store/weatherSlice.js:63-66 | removeFav keeps a list free of duplicates |
| WeatherSlice.Toggle | src/pages/Dashboard.jsx:106-108 | the toggle flips whether the name is in the list and keeps every other name's membership |
| WeatherSlice.ToggleTwiceAbsent | src/pages/Dashboard.jsx:106-108 | toggling an absent name twice restores exactly the original list |
| WeatherSlice.ToggleTwicePresent | src/pages/Dashboard.jsx:106-108 | toggling a present name twice in a duplicate-free list keeps the same names with no duplicates and moves that name to the end |
| WeatherSlice.StoredUnit | src/store/weatherSlice.js:44 | the start-up unit is the stored one when it is non-empty, and "C" otherwise; it is never empty |
| WeatherSlice.StoredFavorites | src/store/weatherSlice.js:43 | the start-up favourites are the stored list, or empty when no list is stored under "wa_favs" |
| WeatherSlice.FindByName | src/store/weatherSlice.js:79 | the result is the first index whose city has the name, or -1 exactly when no city has it |
| WeatherSlice.FoldIn | src/store/weatherSlice.js:77-82 | for a known name, the first city with that name is replaced and the length and all other positions are kept. For a new name, the payload is put at index 0 and the old cities shift right by one |
| WeatherSlice.FoldInKeepsNamesUnique | src/store/weatherSlice.js:77-82 | folding keeps names unique, the payload becomes the only city with its name, and the set of other names is unchanged |
| WeatherSlice.FoldInIdempotent | src/store/weatherSlice.js:77-82 | folding the same payload twice equals folding it once |
| WeatherSlice.Store.constructor | src/store/weatherSlice.js:40-47 | the store starts with no cities, no forecast, status idle and no error, with the unit and favourites loaded from storage |
| WeatherSlice.Store.SetUnit | src/store/weatherSlice.js:53-56 | the payload is stored verbatim and persisted under "wa_unit"; a reload reads it back ("C" if it was empty) |
| WeatherSlice.Store.AddFav | src/store/weatherSlice.js:57-62 | favourites become Added, persisted only when the name was absent; duplicate-freedom and the storage mirror are kept |
| WeatherSlice.Store.RemoveFav | src/store/weatherSlice.js:63-66 | favourites become Without and are always persisted, so the storage mirror holds afterwards; duplicate-freedom is kept |
| WeatherSlice.Store.SetCities | src/store/weatherSlice.js:67-69 | the tracked list is replaced by the payload; nothing else changes |
| WeatherSlice.Store.ClearForecast | src/store/weatherSlice.js:70-72 | the selected forecast becomes null; nothing else changes |
| WeatherSlice.Store.FetchCurrentPending | src/store/weatherSlice.js:76 | the status becomes loading; nothing else changes |
| WeatherSlice.Store.FetchCurrentFulfilled | src/store/weatherSlice.js:77-82 | the status becomes succeeded, the cities become FoldIn of the payload, and the error is untouched |
| WeatherSlice.Store.FetchCurrentRejected | src/store/weatherSlice.js:83 | the status becomes failed and the error becomes the payload; the cities are untouched |
| WeatherSlice.Store.FetchForecastFulfilled | src/store/weatherSlice.js:84 | the selected forecast is replaced wholesale by the payload |
| WeatherSlice.Store.FetchForecastRejected | src/store/weatherSlice.js:85 | the error becomes the payload; the selected forecast and the status are untouched |
| WeatherSlice.Store.RunFetchCurrent | src/store/weatherSlice.js:14-25 | the step-by-step read-cache, call, write-cache sequence produces exactly FetchCurrentRun's payload, call flag and storage |
| WeatherSlice.Store.DispatchFetchCurrent | src/store/weatherSlice.js:76-83 | on success the cities are folded and the error kept; on failure the status is failed, the error recorded, and the cities and storage unchanged. The favourites mirror is kept |
| WeatherSlice.Store.DispatchFetchForecast | src/store/weatherSlice.js:84-85 | on success the forecast is replaced and the error kept; on failure the error is recorded and the forecast kept |
| CityModal.RequestDays | src/components/CityModal.jsx:15 | the days requested are max(rangeDays, 1): always at least 1, and the range itself when it is positive |
| CityModal.OfferedRangesRequestedAsIs | src/components/CityModal.jsx:56-61 | the default range of 7 days and each offered range of 3, 5 and 7 days is requested unchanged |
| CityModal.DailyOf | src/components/CityModal.jsx:23-29 | one point per day, in order, copying date, average C and F temperature, precipitation and maximum wind |
| CityModal.DailyData | src/components/CityModal.jsx:21-30 | empty without a forecast, and the per-day points of its days otherwise |
| CityModal.HourlyTime | src/components/CityModal.jsx:36 | only the first space becomes "T"; the length and every other character are kept, and a time with no space is unchanged |
| CityModal.HourPoint | src/components/CityModal.jsx:35-41 | an hourly point carries the sample's time with its first space replaced by "T", plus its C and F temperatures, precipitation and wind, unchanged |
| CityModal.HoursOf | src/components/CityModal.jsx:35-41 | one hourly point per sample of a day, in order |
| CityModal.HourlyOf | src/components/CityModal.jsx:34-42 | the flattened series has as many points as the days have hours in total |
| CityModal.HourlyData | src/components/CityModal.jsx:32-43 | empty without a forecast; otherwise the day-major flattening of every day's hours, of total hour count length |
| CityModal.HourlyAt | src/components/CityModal.jsx:34-42 | hour h of day d sits at the hour count of the earlier days plus h (day-major order) |
| CityModal.DailyTemp | src/components/CityModal.jsx:74 | unit "C" plots avgC; any other unit plots avgF |
| CityModal.HourlyTemp | src/components/CityModal.jsx:90 | unit "C" plots tempC; any other unit plots tempF |
| CityModal.DailyLine | src/components/CityModal.jsx:74 | day i's plotted value is that day's average temperature in the selected unit |
| CityModal.HourlyLine | src/components/CityModal.jsx:90 | the plotted value at hour h of day d is that sample's temperature in the selected unit |
| CityModal.TickLabel | src/components/CityModal.jsx:86 | the axis label is characters 11 to 16 clamped to the length: at most 5 characters, and exactly t[11..16] for a time of 16 or more characters |
| CityModal.ServiceTimeLabel | src/components/CityModal.jsx:86 | a service time "YYYY-MM-DD HH:MM" is charted as "YYYY-MM-DDTHH:MM" and labelled "HH:MM" |
| CityCard.TempLabel | src/components/CityCard.jsx:4 | unit "C" shows temp_c followed by "°C", and any other unit shows temp_f followed by "°F"; the label ends in "C" exactly when the unit is "C" |
| CityCard.IconUrl | src/components/CityCard.jsx:5 | an icon starting with "//" gets "https:" in front, and any other icon is kept; the result never starts with "//" |
| CityCard.IconUrlIdempotent | src/components/CityCard.jsx:5 | normalising twice equals normalising once |
| CityCard.FavLabel | src/components/CityCard.jsx:30-31 | the label is "Favorited" exactly when the city is a favourite, and "Favorite" otherwise |

## Left out

- The weather service client (`src/api/weatherApi.js`) is not modelled: it builds URLs and makes HTTP requests. Its answers are the `remote` parameter.
- `src/utils/cache.js` is modelled only as a map with typed values. JSON encoding and decoding are left out, and so are parse failures of values written by other code.
- Values of the wrong kind under "wa_unit" or "wa_favs" are treated as absent (`StoredUnit`, `StoredFavorites`). Only the store writes these keys, and always with the right kind. A malformed stored favourites list would make the start-up `JSON.parse` throw, and that throw is not modelled.
- `Store.SetUnit`, `Store.AddFav` and `Store.RemoveFav` always succeed in writing storage. A quota error thrown by `setItem` inside a reducer is not modelled. The cache write swallows such errors and is modelled with `fits`.
- `Text.Lower` lower-cases ASCII letters only. JavaScript's `toLowerCase` also folds non-ASCII letters.
- `FindByName` compares `location.name` directly. Every city in the model has a location, so the `location?.` case of a city without one does not arise.
- The following are framework and concurrency concerns and are not modelled:
  - the Redux Toolkit and Immer machinery;
  - the interleaving of concurrent thunks, where the last fold wins;
  - the modal's `mounted` flag and its own forecast request (only the `days` argument is modelled);
  - the React state and the chart rendering.
- `src/pages/Dashboard.jsx` is not modelled apart from the favourite toggle. That leaves out:
  - Firebase sign-in and the Firestore favourites sync;
  - the 60-second polling. In the code it calls the service directly, without the cache or the fold-in, and replaces the whole list with `setCities`, so a single failing city loses the batch;
  - `Promise.all`, the search suggestions and rendering.
- `src/components/SearchBar.jsx` and `src/App.jsx` hold UI state and layout only and are not modelled.
- Temperatures and other numeric readings are opaque text. No arithmetic or number formatting is modelled.
