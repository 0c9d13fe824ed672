/** The weather store: the published weather for the user's region and for
    the favourite locations, with the two actions that fill them. Each HTTP
    fetch is an oracle that resolves with a payload or rejects. */
module WeatherStore {
  import opened Js

  /** `typeof x === 'number'` splits a coordinate into a number and anything
      else (missing, a string, an object). */
  datatype Coordinate = Number(value: real) | NotNumber

  /** The three feeds fetched for one coordinate pair. */
  datatype Feed = CurrentWeather | FiveDayForecast | AirQuality

  /** One network call the store issues. */
  datatype Request = Request(feed: Feed, lat: real, lng: real)

  /** The three calls `Promise.all` waits for, in argument order. */
  function FeedRequests(lat: real, lng: real): seq<Request> {
    [Request(CurrentWeather, lat, lng), Request(FiveDayForecast, lat, lng), Request(AirQuality, lat, lng)]
  }

  /** The values `Promise.all` resolves to. */
  datatype Feeds = Feeds(currentWeather: Payload, fiveDayForecast: Payload, airQuality: Payload)

  /** `Promise.all` over the three feeds: it resolves only when all three
      resolve, and otherwise rejects with the rejection of a failing feed. */
  function AllFeeds(current: Settled<Payload>, forecast: Settled<Payload>, air: Settled<Payload>): (r: Settled<Feeds>)
    ensures r.Resolved? <==> current.Resolved? && forecast.Resolved? && air.Resolved?
    ensures r.Resolved? ==> r.value == Feeds(current.value, forecast.value, air.value)
    ensures r.Rejected? ==> Rejected(r.error) in {current, forecast, air}
  {
    match (current, forecast, air)
    case (Resolved(c), Resolved(f), Resolved(a)) => Resolved(Feeds(c, f, a))
    case (Rejected(e), _, _) => Rejected(e)
    case (_, Rejected(e), _) => Rejected(e)
    case (_, _, Rejected(e)) => Rejected(e)
  }

  /** `name || fallback` for an optional string property. */
  function NameOr(name: Option<string>, fallback: string): string {
    if name.Some? && name.value != "" then name.value else fallback
  }

  // ---------------------------------------------------------------------
  // Region channel

  /** The region argument `{ region, latitude, longitude, place_id }`;
      `None` stands for a falsy argument (null or undefined). */
  datatype Region = Region(region: Option<string>, latitude: Coordinate, longitude: Coordinate, placeId: Option<string>)

  datatype RegionInfo = RegionInfo(name: Option<string>, lat: real, lon: real, placeId: Option<string>)

  datatype RegionSnapshot =
    RegionSnapshot(regionInfo: RegionInfo, currentWeather: Payload, fiveDayForecast: Payload, airQuality: Payload)

  /** `regionWeatherData` and `errorRegion` as one value. */
  datatype RegionState = RegionState(data: Option<RegionSnapshot>, error: Option<string>)

  predicate ValidRegion(region: Option<Region>) {
    region.Some? && region.value.latitude.Number? && region.value.longitude.Number?
  }

  const InvalidRegionMessage := "Invalid region data provided."
  const RegionFailurePrefix := "Failed to fetch weather for "

  /** The state `fetchRegionWeather` publishes, given what each feed does
      for the region's coordinates. */
  function RegionOutcome(region: Option<Region>, fetch: Feed -> Settled<Payload>): (r: RegionState)
    ensures !ValidRegion(region) ==> r == RegionState(None, Some(InvalidRegionMessage))
    ensures r.data.Some? <==>
      ValidRegion(region) && fetch(CurrentWeather).Resolved? && fetch(FiveDayForecast).Resolved? && fetch(AirQuality).Resolved?
    ensures r.data.Some? ==> r.error == None
    ensures r.data.Some? ==>
      var reg := region.value;
      r.data.value == RegionSnapshot(
        RegionInfo(reg.region, reg.latitude.value, reg.longitude.value, reg.placeId),
        fetch(CurrentWeather).value, fetch(FiveDayForecast).value, fetch(AirQuality).value)
    ensures ValidRegion(region) && r.data.None? ==>
      exists f :: fetch(f).Rejected?
        && r.error == Some(RegionFailurePrefix + NameOr(region.value.region, "your region") + ". " + MessageOrEmpty(fetch(f).error))
  {
    if !ValidRegion(region) then
      RegionState(None, Some(InvalidRegionMessage))
    else
      var reg := region.value;
      match AllFeeds(fetch(CurrentWeather), fetch(FiveDayForecast), fetch(AirQuality))
      case Resolved(feeds) =>
        var info := RegionInfo(reg.region, reg.latitude.value, reg.longitude.value, reg.placeId);
        RegionState(Some(RegionSnapshot(info, feeds.currentWeather, feeds.fiveDayForecast, feeds.airQuality)), None)
      case Rejected(e) =>
        assert Rejected(e) in {fetch(CurrentWeather), fetch(FiveDayForecast), fetch(AirQuality)};
        RegionState(None, Some(RegionFailurePrefix + NameOr(reg.region, "your region") + ". " + MessageOrEmpty(e)))
  }

  // ---------------------------------------------------------------------
  // Favourites channel

  /** A favourite location `{ description, lat, lng, place_id }`. */
  datatype Location = Location(description: Option<string>, lat: Coordinate, lng: Coordinate, placeId: Option<string>)

  /** One element of the locations array: `null`, `undefined` or an object. */
  datatype Slot = NullSlot | UndefinedSlot | Present(location: Location)

  /** The key of `weatherData`: the place id, or the `"lat,lng"` string
      (kept abstract as the pair it is built from). */
  datatype LocationKey = PlaceIdKey(placeId: string) | LatLngKey(lat: real, lng: real)

  /** One entry of `weatherData`: `error: null` with the three results, or
      `error: true` with a message. */
  datatype LocationSnapshot =
    | Fetched(locationInfo: Location, currentWeather: Payload, fiveDayForecast: Payload, airQuality: Payload)
    | Failed(locationInfo: Location, errorMessage: string)

  /** `weatherData`, `errorLocations` as one value. */
  datatype LocationsState = LocationsState(data: map<LocationKey, LocationSnapshot>, error: Option<string>)

  /** What each feed does for the location at a given index of the list. */
  type Fetcher = (nat, Feed) -> Settled<Payload>

  predicate HasCoordinates(s: Slot) {
    s.Present? && s.location.lat.Number? && s.location.lng.Number?
  }

  /** `location.place_id || \`${lat},${lng}\`` */
  function KeyOf(loc: Location): (r: LocationKey)
    requires loc.lat.Number? && loc.lng.Number?
    ensures r.PlaceIdKey? <==> loc.placeId.Some? && loc.placeId.value != ""
    ensures r.PlaceIdKey? ==> r.placeId == loc.placeId.value
    ensures r.LatLngKey? ==> r.lat == loc.lat.value && r.lng == loc.lng.value
  {
    if loc.placeId.Some? && loc.placeId.value != "" then PlaceIdKey(loc.placeId.value)
    else LatLngKey(loc.lat.value, loc.lng.value)
  }

  /** The entry the callback stores for one location once its three feeds
      have settled. */
  function SnapshotFor(loc: Location, current: Settled<Payload>, forecast: Settled<Payload>, air: Settled<Payload>): (r: LocationSnapshot)
    ensures r.locationInfo == loc
    ensures r.Fetched? <==> current.Resolved? && forecast.Resolved? && air.Resolved?
    ensures r.Fetched? ==> r == Fetched(loc, current.value, forecast.value, air.value)
    ensures r.Failed? ==>
      exists s :: s in {current, forecast, air} && s.Rejected?
        && r.errorMessage == (if MessageOrEmpty(s.error) != "" then MessageOrEmpty(s.error) else "Failed to fetch data")
  {
    match AllFeeds(current, forecast, air)
    case Resolved(feeds) => Fetched(loc, feeds.currentWeather, feeds.fiveDayForecast, feeds.airQuality)
    case Rejected(e) =>
      var message := MessageOrEmpty(e);
      Failed(loc, if message != "" then message else "Failed to fetch data")
  }

  /** The entry for the location at index `i`. */
  function SnapshotAt(slots: seq<Slot>, i: nat, fetch: Fetcher): LocationSnapshot
    requires i < |slots| && slots[i].Present?
  {
    SnapshotFor(slots[i].location, fetch(i, CurrentWeather), fetch(i, FiveDayForecast), fetch(i, AirQuality))
  }

  /** `newWeatherData` once the callbacks of all of `slots` have settled,
      taken in list order. */
  function Collected(slots: seq<Slot>, fetch: Fetcher): map<LocationKey, LocationSnapshot>
  {
    if slots == [] then map[]
    else
      var i := |slots| - 1;
      var m := Collected(slots[..i], fetch);
      if HasCoordinates(slots[i]) then m[KeyOf(slots[i].location) := SnapshotAt(slots, i, fetch)] else m
  }

  /** At most one entry per location. */
  lemma {:induction false} CollectedSize(slots: seq<Slot>, fetch: Fetcher)
    ensures |Collected(slots, fetch)| <= |slots|
  {
    if slots != [] {
      CollectedSize(slots[..|slots| - 1], fetch);
    }
  }

  /** The network calls the callbacks of `slots` issue, in list order. */
  function RequestsFor(slots: seq<Slot>): (r: seq<Request>)
    ensures |r| <= 3 * |slots|
  {
    if slots == [] then []
    else
      var i := |slots| - 1;
      RequestsFor(slots[..i])
        + if HasCoordinates(slots[i]) then FeedRequests(slots[i].location.lat.value, slots[i].location.lng.value) else []
  }

  /** Every request is for the coordinates of a location that has them, and
      requests are issued exactly when some location has coordinates. */
  lemma {:induction false} RequestsOnlyForLocated(slots: seq<Slot>)
    ensures RequestsFor(slots) == [] <==> forall i :: 0 <= i < |slots| ==> !HasCoordinates(slots[i])
    ensures forall q :: q in RequestsFor(slots) ==>
      exists i :: 0 <= i < |slots| && HasCoordinates(slots[i])
        && q.lat == slots[i].location.lat.value && q.lng == slots[i].location.lng.value
  {
    if slots != [] {
      var n := |slots| - 1;
      var prefix := slots[..n];
      RequestsOnlyForLocated(prefix);
      forall i | 0 <= i < n
        ensures prefix[i] == slots[i]
      {
      }
    }
  }

  /** Every location with coordinates has an entry under its key, and every
      entry is the snapshot of a location with coordinates stored under that
      location's key: skipped locations leave nothing behind. */
  lemma {:induction false} CollectedEntries(slots: seq<Slot>, fetch: Fetcher)
    ensures forall i :: 0 <= i < |slots| && HasCoordinates(slots[i]) ==> KeyOf(slots[i].location) in Collected(slots, fetch)
    ensures forall k :: k in Collected(slots, fetch) ==>
      exists i :: 0 <= i < |slots| && HasCoordinates(slots[i]) && KeyOf(slots[i].location) == k
        && Collected(slots, fetch)[k] == SnapshotAt(slots, i, fetch)
  {
    if slots != [] {
      var n := |slots| - 1;
      var prefix := slots[..n];
      CollectedEntries(prefix, fetch);
      forall i | 0 <= i < n && slots[i].Present?
        ensures prefix[i] == slots[i] && SnapshotAt(prefix, i, fetch) == SnapshotAt(slots, i, fetch)
      {
      }
    }
  }

  /** A location whose key no later location shares keeps its own snapshot. */
  lemma {:induction false} CollectedEntry(slots: seq<Slot>, fetch: Fetcher, i: nat)
    requires i < |slots| && HasCoordinates(slots[i])
    requires forall j :: i < j < |slots| && HasCoordinates(slots[j]) ==> KeyOf(slots[j].location) != KeyOf(slots[i].location)
    ensures KeyOf(slots[i].location) in Collected(slots, fetch)
    ensures Collected(slots, fetch)[KeyOf(slots[i].location)] == SnapshotAt(slots, i, fetch)
  {
    var n := |slots| - 1;
    if i < n {
      var prefix := slots[..n];
      assert prefix[i] == slots[i];
      CollectedEntry(prefix, fetch, i);
      assert SnapshotAt(prefix, i, fetch) == SnapshotAt(slots, i, fetch);
    }
  }

  /** No two locations with coordinates share a key. */
  ghost predicate DistinctKeys(slots: seq<Slot>) {
    forall i, j :: 0 <= i < j < |slots| && HasCoordinates(slots[i]) && HasCoordinates(slots[j]) ==>
      KeyOf(slots[i].location) != KeyOf(slots[j].location)
  }

  /** Failure isolation: with distinct keys, the entry of location `i`
      depends only on the outcomes of location `i`'s own feeds. */
  lemma EntryDependsOnlyOnOwnFeeds(slots: seq<Slot>, fetch: Fetcher, fetch': Fetcher, i: nat)
    requires DistinctKeys(slots)
    requires i < |slots| && HasCoordinates(slots[i])
    requires forall f :: fetch(i, f) == fetch'(i, f)
    ensures KeyOf(slots[i].location) in Collected(slots, fetch) && KeyOf(slots[i].location) in Collected(slots, fetch')
    ensures Collected(slots, fetch)[KeyOf(slots[i].location)] == Collected(slots, fetch')[KeyOf(slots[i].location)]
  {
    CollectedEntry(slots, fetch, i);
    CollectedEntry(slots, fetch', i);
  }

  /** The first `null`/`undefined` element: reading `.lat` off it throws
      inside its callback, which rejects the outer `Promise.all`. */
  function FirstMissing(slots: seq<Slot>): (r: Option<nat>)
    ensures r.Some? ==> r.value < |slots| && !slots[r.value].Present?
    ensures r.Some? ==> forall j :: 0 <= j < r.value ==> slots[j].Present?
    ensures r.None? <==> forall j :: 0 <= j < |slots| ==> slots[j].Present?
  {
    if slots == [] then None
    else if !slots[0].Present? then Some(0)
    else match FirstMissing(slots[1..])
      case None => None
      case Some(j) => Some(j + 1)
  }

  /** The TypeError message of reading `lat` off a missing element. */
  function ReadErrorMessage(s: Slot): string
    requires !s.Present?
  {
    if s.NullSlot? then "Cannot read properties of null (reading 'lat')"
    else "Cannot read properties of undefined (reading 'lat')"
  }

  const LocationsFailurePrefix := "Failed to fetch weather for all locations. "

  /** The state `fetchWeatherForAllLocations` publishes; `None` stands for an
      argument that is not an array. */
  function LocationsOutcome(locations: Option<seq<Slot>>, fetch: Fetcher): (r: LocationsState)
    ensures locations.None? || locations == Some([]) ==> r == LocationsState(map[], None)
    ensures r.error.Some? <==> locations.Some? && exists i :: 0 <= i < |locations.value| && !locations.value[i].Present?
    ensures r.error.Some? ==> r.data == map[] && LocationsFailurePrefix <= r.error.value
    ensures r.error.None? && locations.Some? ==>
      var slots := locations.value;
      && (forall i :: 0 <= i < |slots| && HasCoordinates(slots[i]) ==> KeyOf(slots[i].location) in r.data)
      && (forall k :: k in r.data ==>
            exists i :: 0 <= i < |slots| && HasCoordinates(slots[i]) && KeyOf(slots[i].location) == k
              && r.data[k] == SnapshotAt(slots, i, fetch))
  {
    if locations.None? || |locations.value| == 0 then
      LocationsState(map[], None)
    else
      var slots := locations.value;
      match FirstMissing(slots)
      case Some(i) => LocationsState(map[], Some(LocationsFailurePrefix + ReadErrorMessage(slots[i])))
      case None =>
        CollectedEntries(slots, fetch);
        LocationsState(Collected(slots, fetch), None)
  }

  /** What one more callback adds to the collected map. */
  lemma CollectedStep(slots: seq<Slot>, i: nat, fetch: Fetcher)
    requires i < |slots|
    ensures Collected(slots[..i + 1], fetch) ==
      if HasCoordinates(slots[i]) then Collected(slots[..i], fetch)[KeyOf(slots[i].location) := SnapshotAt(slots, i, fetch)]
      else Collected(slots[..i], fetch)
  {
    var prefix := slots[..i + 1];
    assert prefix[..i] == slots[..i];
    if slots[i].Present? {
      assert SnapshotAt(prefix, i, fetch) == SnapshotAt(slots, i, fetch);
    }
  }

  /** What one more callback adds to the issued requests. */
  lemma RequestsStep(slots: seq<Slot>, i: nat)
    requires i < |slots|
    ensures RequestsFor(slots[..i + 1]) ==
      RequestsFor(slots[..i])
        + if HasCoordinates(slots[i]) then FeedRequests(slots[i].location.lat.value, slots[i].location.lng.value) else []
  {
    assert slots[..i + 1][..i] == slots[..i];
  }

  /** The first missing element after one more callback. */
  lemma FirstMissingStep(slots: seq<Slot>, i: nat)
    requires i < |slots|
    ensures FirstMissing(slots[..i + 1]) ==
      if FirstMissing(slots[..i]).Some? then FirstMissing(slots[..i])
      else if !slots[i].Present? then Some(i) else None
  {
    assert slots[..i + 1][..i] == slots[..i];
  }

  class Store {
    var weatherData: map<LocationKey, LocationSnapshot>
    var regionWeatherData: Option<RegionSnapshot>
    var isLoadingRegion: bool
    var isLoadingLocations: bool
    var errorRegion: Option<string>
    var errorLocations: Option<string>

    constructor ()
      ensures weatherData == map[] && regionWeatherData == None
      ensures !isLoadingRegion && !isLoadingLocations
      ensures errorRegion == None && errorLocations == None
    {
      weatherData := map[];
      regionWeatherData := None;
      isLoadingRegion := false;
      isLoadingLocations := false;
      errorRegion := None;
      errorLocations := None;
    }

    /** Validates the region, fetches its three feeds and publishes either
        the full snapshot or an error; the loading flag ends false. The
        returned requests are the calls it made. */
    method FetchRegionWeather(region: Option<Region>, fetch: Feed -> Settled<Payload>) returns (requests: seq<Request>)
      modifies this`isLoadingRegion, this`regionWeatherData, this`errorRegion
      ensures RegionState(regionWeatherData, errorRegion) == RegionOutcome(region, fetch)
      ensures !isLoadingRegion
      ensures !ValidRegion(region) ==> requests == []
      ensures ValidRegion(region) ==> requests == FeedRequests(region.value.latitude.value, region.value.longitude.value)
    {
      if !ValidRegion(region) {
        errorRegion := Some(InvalidRegionMessage);
        regionWeatherData := None;
        isLoadingRegion := false;
        return [];
      }
      var reg := region.value;
      isLoadingRegion := true;
      errorRegion := None;
      var lat, lng := reg.latitude.value, reg.longitude.value;
      requests := FeedRequests(lat, lng);
      var all := AllFeeds(fetch(CurrentWeather), fetch(FiveDayForecast), fetch(AirQuality));
      match all {
        case Resolved(feeds) =>
          regionWeatherData := Some(RegionSnapshot(RegionInfo(reg.region, lat, lng, reg.placeId),
                                                   feeds.currentWeather, feeds.fiveDayForecast, feeds.airQuality));
        case Rejected(e) =>
          regionWeatherData := None;
          errorRegion := Some(RegionFailurePrefix + NameOr(reg.region, "your region") + ". " + MessageOrEmpty(e));
      }
      isLoadingRegion := false;
    }

    /** Runs every location's callback, collecting entries into a fresh map,
        then publishes that map in one assignment (or the general error when
        a callback threw); the loading flag ends false. */
    method FetchWeatherForAllLocations(locations: Option<seq<Slot>>, fetch: Fetcher) returns (requests: seq<Request>)
      modifies this`weatherData, this`isLoadingLocations, this`errorLocations
      ensures LocationsState(weatherData, errorLocations) == LocationsOutcome(locations, fetch)
      ensures !isLoadingLocations
      ensures requests == if locations.Some? then RequestsFor(locations.value) else []
    {
      if locations.None? || |locations.value| == 0 {
        weatherData := map[];
        isLoadingLocations := false;
        errorLocations := None;
        return [];
      }
      var slots := locations.value;
      isLoadingLocations := true;
      errorLocations := None;
      var newWeatherData := map[];
      var thrown: Option<nat> := None;
      requests := [];
      var i := 0;
      while i < |slots|
        invariant 0 <= i <= |slots|
        invariant newWeatherData == Collected(slots[..i], fetch)
        invariant requests == RequestsFor(slots[..i])
        invariant thrown == FirstMissing(slots[..i])
        invariant errorLocations == None
      {
        CollectedStep(slots, i, fetch);
        RequestsStep(slots, i);
        FirstMissingStep(slots, i);
        match slots[i] {
          case Present(loc) =>
            if loc.lat.Number? && loc.lng.Number? {
              requests := requests + FeedRequests(loc.lat.value, loc.lng.value);
              newWeatherData := newWeatherData[KeyOf(loc) := SnapshotAt(slots, i, fetch)];
            }
          case _ =>
            if thrown.None? {
              thrown := Some(i);
            }
        }
        i := i + 1;
      }
      assert slots[..i] == slots;
      assert thrown == FirstMissing(slots) && newWeatherData == Collected(slots, fetch);
      if thrown.Some? {
        errorLocations := Some(LocationsFailurePrefix + ReadErrorMessage(slots[thrown.value]));
        weatherData := map[];
        assert LocationsOutcome(locations, fetch) == LocationsState(weatherData, errorLocations);
      } else {
        weatherData := newWeatherData;
        assert LocationsOutcome(locations, fetch) == LocationsState(weatherData, errorLocations);
      }
      isLoadingLocations := false;
    }
  }
}
