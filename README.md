# Nimbus: user, weather and maps-service state, modelled in Dafny

Nimbus is a browser weather app. This project models the three components
that hold its decision logic:

- **User account store** (`user_store.dfy`, module `UserStore`). This is an
  in-memory list of user records plus the session: the active user and the
  authenticated flag. It has four actions: `login`, `register`,
  `savePreferences` and `logout`. Records are maps from property name to a
  JSON-like value. The object spread `{...a, ...b}` is map union.
- **Weather store** (`weather_store.dfy`, module `WeatherStore`). It has two
  channels:
  - The region channel validates its argument and publishes one region
    snapshot. The snapshot is published whole or not at all.
  - The favourites channel builds a fresh map keyed by place id, or by the
    `"lat,lng"` pair when there is no id. Each location's failure is kept to
    that location's entry. The map is published in one assignment.

  Each HTTP fetch is an oracle that resolves with a payload or rejects. The
  actions return the list of requests they issued.
- **Maps service** (`weather_service.dfy`, module `WeatherService`). It holds
  two module-level singletons:
  - the memoised SDK loader promise (a latch);
  - the autocomplete session token, modelled as a fresh object identity.

  Around them sit the pure parts: prediction formatting, the mapping from
  prediction and geocoder statuses to results, and the city lookup's error
  classification.

`js.dfy` (module `Js`) holds the shared vocabulary. A rejection is an
`Error` object (which has a `.message`) or a bare string. The two
message-extraction idioms the source uses are `error.message || ''` and
`error.message || error`.

Behaviour of the code worth noting:

- A `null` or `undefined` element in the favourites list makes its callback
  throw. The outer `Promise.all` then rejects. The action publishes an empty
  map and the general "Failed to fetch weather for all locations." error.
- The region error includes the upstream message only when the rejection is
  an `Error`. The "API key is missing" rejection is a bare string, so it
  contributes an empty detail. In the favourites channel the same rejection
  gives the fallback "Failed to fetch data".
- A prediction reply with status OK but null predictions rejects and names
  the status OK.

## Model

| member | source | states |
|---|---|---|
| `Js.MessageOrEmpty` | src/stores/weather.js:67 | It has no contract. The body is `error.message \|\| ''` (also weather.js:126 and 142): an `Error`'s message, and the empty string for a bare-string rejection. |
| `Js.MessageOrSelf` | src/weatherService.js:162 | It has no contract. The body is `${error.message \|\| error}` (also weatherService.js:217 and 274): a non-empty message; "Error" for an `Error` with an empty message, which is how `String(new Error(""))` prints; and the string itself for a bare-string rejection. |
| `UserStore.FindIndex` | src/stores/user.js:30-32 | The result is the index of the first record matching the criterion (email, username, or username-or-email plus password), or none exactly when no record matches. This is the shared meaning of `find`, `some` and `findIndex`. |
| `UserStore.Matches` | src/stores/user.js:31 | It has no contract. The body is the test each lookup applies to one record: `email === e` (user.js:55), `username === u` (user.js:59, 93), or `(username === id \|\| email === id) && password === p` (user.js:31). A missing property never matches. |
| `UserStore.NewUser` | src/stores/user.js:65-77 | The registered record has exactly the ten properties of the source's literal: 50 coins, null region, no locations. Its owner can be found by email and by username, and can log in with either identifier and the password. |
| `UserStore.SeedUsers` | src/stores/user.js:13-16 | The two seed records: maria with maria@example.com and password 54321, john with john@example.com and password 12345. |
| `UserStore.SeedUsersUnique` | src/stores/user.js:13-16 | The seed accounts have distinct emails and distinct usernames. |
| `UserStore.SavePreferencesCanBreakUniqueness` | src/stores/user.js:98-101 | Counterexample on the seed records, where maria is found by username: merging `{username: "john"}` into maria's record leaves two accounts named john. `savePreferences` does not re-check uniqueness. |
| `UserStore.Merge` | src/stores/user.js:98-101 | The shallow merge has the union of both key sets. A preference key overrides. Every other key keeps the base value. |
| `UserStore.RegisterKeepsAccountsUnique` | src/stores/user.js:55-78 | Appending the new record after both duplicate checks passed keeps every email and every username unique. |
| `UserStore.SavePreferencesKeepsAccountsUnique` | src/stores/user.js:93-101 | Merging preferences that set neither email nor username into one record keeps accounts unique. |
| `UserStore.Store.constructor` | src/stores/user.js:7-17 | The initial state has nobody logged in, and the list is exactly the two seed records, which are unique. |
| `UserStore.Store.Login` | src/stores/user.js:28-51 | Login succeeds exactly when some record matches the identifier as username or email, with the password. On success the flag is true and the active user is the first matching record. Otherwise the active user is null, the flag is false and "Invalid credentials!" is thrown. The list is never changed. |
| `UserStore.Store.Register` | src/stores/user.js:54-83 | An existing email throws "Email already exists!", and this check wins over the username check. An existing username with a new email throws "Username already exists!". Both errors leave the list unchanged. Success appends exactly the default record: 50 coins, null region, no locations. Uniqueness is preserved and the session is untouched. |
| `UserStore.Store.SavePreferences` | src/stores/user.js:91-118 | An unknown username throws "User not found!" and changes nothing. Otherwise only the first record with that username is replaced by the merge, and the length is kept. The active user is merged only when its username equals the argument. |
| `UserStore.SeedAccountsLogIn` | src/stores/user.js:13-51 | On a fresh store, maria logs in by username and john by email, each with their own password. John's username with maria's password throws "Invalid credentials!". |
| `UserStore.Store.Logout` | src/stores/user.js:121-129 | The flag becomes false and the active user null. The list is unchanged. |
| `WeatherStore.AllFeeds` | src/stores/weather.js:48-52 | `Promise.all` over the three feeds resolves exactly when all three resolve, with their three values in order. Otherwise it rejects with the rejection of one of the feeds. |
| `WeatherStore.RegionOutcome` | src/stores/weather.js:32-73 | A missing region or a non-number coordinate gives "Invalid region data provided." and no data. Data is published exactly when the region is valid and all three feeds resolve, and it is never partial. The published data holds regionInfo {name, lat, lon, place_id} and the three results, with no error. A failed feed gives no data and an error starting "Failed to fetch weather for ", which names the region or "your region" and the failing feed's message. |
| `WeatherStore.KeyOf` | src/stores/weather.js:103 | The key is the place id exactly when the location has a non-empty one. Otherwise it is the location's own coordinate pair. |
| `WeatherStore.SnapshotFor` | src/stores/weather.js:105-128 | An entry keeps the location as given. It is a success entry with the three results exactly when all three feeds resolve. Otherwise it is an error entry whose message is the failing feed's message, or "Failed to fetch data" when there is none. |
| `WeatherStore.Collected` | src/stores/weather.js:92-129 | It has no contract. The body builds `newWeatherData` by running the callbacks in list order. Each location with coordinates stores its snapshot under its key, so a later location with the same key overwrites. `CollectedEntries`, `CollectedEntry` and `CollectedSize` state its contents. |
| `WeatherStore.CollectedSize` | src/stores/weather.js:92-129 | The collected map holds at most one entry per location. |
| `WeatherStore.RequestsFor` | src/stores/weather.js:94-111 | At most three requests are issued per location. |
| `WeatherStore.RequestsOnlyForLocated` | src/stores/weather.js:94-111 | Every request carries the coordinates of a location that has numeric coordinates. No request is issued exactly when no location has coordinates. |
| `WeatherStore.CollectedEntries` | src/stores/weather.js:94-129 | Every location with numeric coordinates has an entry under its key. Every entry is the snapshot of some location with coordinates, stored under that location's key. Skipped locations leave nothing behind. |
| `WeatherStore.CollectedEntry` | src/stores/weather.js:103-123 | A location whose key no later location shares gets its own snapshot under that key. |
| `WeatherStore.EntryDependsOnlyOnOwnFeeds` | src/stores/weather.js:105-128 | When keys are distinct, a location's entry is the same for any two oracles that agree on that location's feeds. One location's outcome never affects another's entry. |
| `WeatherStore.FirstMissing` | src/stores/weather.js:94-99 | The result is the first null or undefined element, whose property read throws, or none exactly when every element is an object. |
| `WeatherStore.ReadErrorMessage` | src/stores/weather.js:96 | It has no contract. The body gives V8's TypeError text for reading `lat` off a `null` or `undefined` element: "Cannot read properties of null (reading 'lat')", or the same with "undefined". |
| `WeatherStore.LocationsOutcome` | src/stores/weather.js:79-147 | A non-array or empty list publishes the empty map with no error. The general error is set exactly when some element is null or undefined, and it comes with the empty map. Otherwise the published map has an entry for every location with coordinates and only for those. |
| `WeatherStore.Store.constructor` | src/stores/weather.js:6-24 | The initial state has empty data, no errors and both loading flags false. |
| `WeatherStore.Store.FetchRegionWeather` | src/stores/weather.js:32-73 | The published region data and error equal `RegionOutcome`. The loading flag is false on return. An invalid region issues no request. A valid one issues the three feed requests for its coordinates. The favourites fields are untouched. |
| `WeatherStore.Store.FetchWeatherForAllLocations` | src/stores/weather.js:79-147 | The loop fills a fresh map and publishes it in one assignment. The old map is not merged. The published map and error equal `LocationsOutcome`. The loading flag is false on return. Requests are issued only for locations with coordinates. |
| `WeatherService.LoadOutcome` | src/weatherService.js:24-82 | The loader's promise resolves exactly when the SDK is already present, an existing tag's SDK appears in time, or an injected tag's SDK appears in time. The three failures reject with the source's three messages: the existing-script timeout, the script-tag error and the injected-script timeout. |
| `WeatherService.IsWhitespace` | src/weatherService.js:95 | It has no contract. The body is the character set `String.prototype.trim` removes: tab, line feed, vertical tab, form feed, carriage return, space, no-break space, the Unicode space separators, the line and paragraph separators, and the byte-order mark. |
| `WeatherService.TrimStart` | src/weatherService.js:95 | The result is a suffix of the input. Everything dropped is white space, and the result does not start with white space. |
| `WeatherService.TrimEnd` | src/weatherService.js:95 | The result is a prefix of the input. Everything dropped is white space, and the result does not end with white space. |
| `WeatherService.BlankIffAllWhitespace` | src/weatherService.js:95-97 | An input is blank (`!input \|\| input.trim() === ''`) exactly when every character is white space. |
| `WeatherService.FormatPredictions` | src/weatherService.js:139-146 | The formatted list has the same length and order. Each entry keeps description, place_id, main_text and secondary_text. |
| `WeatherService.PredictionsResult` | src/weatherService.js:136-155 | The callback resolves exactly for OK with predictions or for ZERO_RESULTS. ZERO_RESULTS gives []. OK with predictions resolves with them formatted, which keeps their number, order and all four fields. Every other case rejects with a message that names the status. |
| `WeatherService.PredictionSetupError` | src/weatherService.js:99-113 | Setup succeeds exactly when the loader resolved and the places library provides AutocompleteService. Otherwise the error is the loader's rejection, which is checked first, then the import's rejection, then "AutocompleteService class is not available.". |
| `WeatherService.DetailsResult` | src/weatherService.js:181-217 | Details resolve with the place exactly when the loader, the import and `fetchFields` all succeed. Otherwise the call rejects with "Error fetching place details: " and the message of the first step that failed, in the order loader, import, `fetchFields`. |
| `WeatherService.GeocodeResult` | src/weatherService.js:257-270 | The geocoder resolves with the first result's address exactly for OK with a non-empty result list. OK with no results rejects with "No results found by Google Geocoder". Any other status rejects and names the status. |
| `WeatherService.DecimalString` | src/weatherService.js:352 | A status code prints as a non-empty string of decimal digits with no leading zero. |
| `WeatherService.DecimalRoundTrip` | src/weatherService.js:352 | The printed status reads back as the same number. `StatusMessageInjective` relies on this. |
| `WeatherService.StatusMessageInjective` | src/weatherService.js:352 | Different statuses give different "Could not fetch weather data for city (…)" messages, so the message identifies the status. |
| `WeatherService.CityLookup` | src/weatherService.js:343-361 | A missing API key or city name rejects before any request. Otherwise the lookup resolves exactly on a 2xx response whose JSON body decodes, and it resolves with the decoded body. A decoding failure or transport failure is rethrown as is. A 404 gives "Could not find the city" and any other status gives the message that carries the status. |
| `WeatherService.ServiceState.constructor` | src/weatherService.js:8-11 | Both singletons start null and the loader has not run. |
| `WeatherService.ServiceState.LoadGoogleMapsApi` | src/weatherService.js:18-85 | The first call creates the promise, settled by that call's page state. Every later call returns that same promise. The latch is never reset, the initialisation runs once, and at most one script tag is injected. |
| `WeatherService.ServiceState.GetAutocompletePredictions` | src/weatherService.js:94-164 | Blank input resolves with [] and touches neither the token nor the loader. A setup failure rejects with "Error setting up predictions: " and clears the token. Otherwise a token is created only if none is live, and the stored token is reused and sent. The result is the callback's mapping. |
| `WeatherService.ServiceState.BeginPlaceDetails` | src/weatherService.js:173-183 | The live token is captured on entry. A missing, non-string or empty place id rejects before the try block, and the token and loader are unchanged. |
| `WeatherService.ServiceState.FinishPlaceDetails` | src/weatherService.js:181-230 | On success and on failure, the token is cleared only if it is still the one captured on entry. A newer token stays live. An early rejection changes nothing. |
| `WeatherService.ServiceState.ReverseGeocodeGoogle` | src/weatherService.js:239-276 | Loader or import failures reject with "Google reverse geocoding failed: " and the failure's message. Otherwise the result is the geocoder callback's mapping. |
| `WeatherService.ManyCallersOneLoad` | src/weatherService.js:20-24 | Three callers in different page states share the first caller's promise and outcome, and exactly one script tag is injected. |
| `WeatherService.FailedLoadIsPermanent` | src/weatherService.js:20-22 | After a load timed out, a later prediction fails its setup, even though the SDK is present by then. |
| `WeatherService.StaleRetirementScenario` | src/weatherService.js:218-227 | A slow details call does not retire the newer token that a prediction created after a faster details call retired the old one. |

## Left out

- Loader body: the DOM script injection, the 100 ms polling and the 10 s and 15 s timeouts are not modelled. They are timer- and browser-driven. The page state at the first call (`LoadEnvironment`) decides the promise's outcome and whether a tag is injected.
- HTTP: the fetch functions (`fetchWeatherDataByCoordinates`, `fetchFiveDayForecastByCoordinates`, `fetchAirQualityByCoordinates`, `reverseGeocodeOpenWeather`), URL building and JSON decoding are oracles that return a payload or a rejection. `fetchFiveDayForecast` and `fetchAirQuality` by city name are not modelled. They only chain `fetchDataByCityName` with a coordinate fetch.
- `AllFeeds`: when several feeds fail, `Promise.all` rejects with the first to fail in time. The model reports the first failing feed in argument order. Timing is not modelled.
- `Store.FetchWeatherForAllLocations`: the callbacks run one after another in list order, which is one admissible interleaving. Overlapping batches and completion order are concurrency and are not modelled. When two locations share a key, the model keeps the later one in the list, while the source keeps the one that completes last.
- `KeyOf`: the key is a place id or an abstract coordinate pair. The source builds the string `"lat,lng"`, so a place id spelled like a coordinate string could collide with it. That case is not modelled.
- Coordinates are a number or not a number. JavaScript floating point, NaN (which passes `typeof === 'number'`) and `parseFloat` are not modelled.
- The TypeError message for a null or undefined element uses V8's wording. Other engines word it differently.
- The loading flags are true while the fetches are in flight. The methods run atomically, so that intermediate state is not observable in the model. Only the final false is stated.
- SDK constructors (`AutocompleteSessionToken`, `AutocompleteService`, `Place`, `Geocoder`) are assumed not to throw. A prediction without `structured_formatting` would throw inside the SDK callback; this is not modelled. The `fields` argument of `fetchPlaceDetails` only reaches the SDK and is not modelled.
- `Store.SavePreferences`: preferences that set `email` or `username` are merged as given. Uniqueness is proved only for preferences that do not.
- Inputs are modelled as strings, with `""` for every falsy string. A non-string input to `getAutocompletePredictions` would throw on `trim`; this is not modelled. Non-string login and register arguments are not modelled either.
- `{...user}` is a copy. Records are values here, so aliasing of nested objects is not modelled.
- Console logging, Pinia `persist`, the two trivial getters, and the app bootstrap in `main.js` are not modelled.
