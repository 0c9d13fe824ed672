/** The service module: the memoised loader of the mapping SDK, the
    autocomplete session token shared by predictions and place details, the
    mappings from SDK callback statuses to results, and the city lookup's
    error classification. SDK objects and HTTP responses are inputs. */
module WeatherService {
  import opened Js

  // ---------------------------------------------------------------------
  // SDK loader

  /** How the page behaves once the loader's initialisation runs: the SDK
      is already there; an earlier script tag exists and the SDK does or
      does not appear within 10 s; or a new tag is injected and the SDK
      appears within 15 s, the tag fails to load, or neither. */
  datatype ScriptLoad = BecameReady | ScriptError | NeverReady
  datatype LoadEnvironment = ApiPresent | ScriptTagPresent(readyInTime: bool) | NoScriptTag(load: ScriptLoad)

  /** What the loader's promise settles to in a given environment. */
  function LoadOutcome(env: LoadEnvironment): (r: Settled<()>)
    ensures r.Resolved? <==> env in {ApiPresent, ScriptTagPresent(true), NoScriptTag(BecameReady)}
    ensures env == ScriptTagPresent(false) ==> r == Rejected(ErrorObject("Timeout waiting for existing Google Maps script."))
    ensures env == NoScriptTag(ScriptError) ==> r == Rejected(ErrorObject("Failed to load Google Maps API script tag."))
    ensures env == NoScriptTag(NeverReady) ==> r == Rejected(ErrorObject("Timeout waiting for Google Maps API."))
  {
    match env
    case ApiPresent => Resolved(())
    case ScriptTagPresent(readyInTime) =>
      if readyInTime then Resolved(()) else Rejected(ErrorObject("Timeout waiting for existing Google Maps script."))
    case NoScriptTag(load) =>
      match load
      case BecameReady => Resolved(())
      case ScriptError => Rejected(ErrorObject("Failed to load Google Maps API script tag."))
      case NeverReady => Rejected(ErrorObject("Timeout waiting for Google Maps API."))
  }

  predicate InjectsScript(env: LoadEnvironment) {
    env.NoScriptTag?
  }

  /** The promise `loadGoogleMapsAPI` hands out; its outcome never changes. */
  class LoadPromise {
    const outcome: Settled<()>

    constructor (outcome: Settled<()>)
      ensures this.outcome == outcome
    {
      this.outcome := outcome;
    }
  }

  /** An autocomplete session token; only its identity matters. */
  class SessionToken {
    constructor () {}
  }

  // ---------------------------------------------------------------------
  // Autocomplete input

  /** The characters `String.prototype.trim` removes: white space and line
      terminators. */
  predicate IsWhitespace(c: char) {
    || c == '\t' || c == '\n' || c == '\U{000B}' || c == '\U{000C}' || c == '\r' || c == ' '
    || c == '\U{00A0}' || c == '\U{1680}' || '\U{2000}' <= c <= '\U{200A}'
    || c == '\U{2028}' || c == '\U{2029}' || c == '\U{202F}' || c == '\U{205F}'
    || c == '\U{3000}' || c == '\U{FEFF}'
  }

  /** Drops leading white space. */
  function TrimStart(s: string): (r: string)
    ensures |r| <= |s| && r == s[|s| - |r|..]
    ensures forall i :: 0 <= i < |s| - |r| ==> IsWhitespace(s[i])
    ensures r != [] ==> !IsWhitespace(r[0])
  {
    if s != [] && IsWhitespace(s[0]) then TrimStart(s[1..]) else s
  }

  /** Drops trailing white space. */
  function TrimEnd(s: string): (r: string)
    ensures |r| <= |s| && r == s[..|r|]
    ensures forall i :: |r| <= i < |s| ==> IsWhitespace(s[i])
    ensures r != [] ==> !IsWhitespace(r[|r| - 1])
  {
    if s != [] && IsWhitespace(s[|s| - 1]) then TrimEnd(s[..|s| - 1]) else s
  }

  function Trim(s: string): string {
    TrimEnd(TrimStart(s))
  }

  /** `!input || input.trim() === ''` */
  predicate Blank(input: string) {
    input == "" || Trim(input) == ""
  }

  /** An input is blank exactly when every character is white space. */
  lemma BlankIffAllWhitespace(input: string)
    ensures Blank(input) <==> forall i :: 0 <= i < |input| ==> IsWhitespace(input[i])
  {
  }

  // ---------------------------------------------------------------------
  // Predictions

  datatype StructuredFormatting = StructuredFormatting(mainText: string, secondaryText: string)

  /** A prediction as the SDK delivers it (`types` stands for the fields the
      formatting drops). */
  datatype Prediction = Prediction(description: string, placeId: string, structuredFormatting: StructuredFormatting, types: seq<string>)

  datatype FormattedPrediction = FormattedPrediction(description: string, placeId: string, structuredFormatting: StructuredFormatting)

  /** `predictions.map(p => ({ description, place_id, structured_formatting }))` */
  function FormatPredictions(ps: seq<Prediction>): (r: seq<FormattedPrediction>)
    ensures |r| == |ps|
    ensures forall i :: 0 <= i < |ps| ==>
      r[i].description == ps[i].description && r[i].placeId == ps[i].placeId
      && r[i].structuredFormatting.mainText == ps[i].structuredFormatting.mainText
      && r[i].structuredFormatting.secondaryText == ps[i].structuredFormatting.secondaryText
  {
    if ps == [] then []
    else
      var p := ps[0];
      var sf := StructuredFormatting(p.structuredFormatting.mainText, p.structuredFormatting.secondaryText);
      [FormattedPrediction(p.description, p.placeId, sf)] + FormatPredictions(ps[1..])
  }

  /** What `getPlacePredictions` hands its callback: a status and possibly
      null predictions. */
  datatype PredictionsReply = PredictionsReply(status: string, predictions: Option<seq<Prediction>>)

  /** The callback's branching: OK with predictions resolves with them
      formatted, ZERO_RESULTS resolves with none, anything else (OK with null
      predictions included) rejects naming the status. */
  function PredictionsResult(reply: PredictionsReply): (r: Settled<seq<FormattedPrediction>>)
    ensures r.Resolved? <==> (reply.status == "OK" && reply.predictions.Some?) || reply.status == "ZERO_RESULTS"
    ensures reply.status == "ZERO_RESULTS" ==> r == Resolved([])
    ensures reply.status == "OK" && reply.predictions.Some? ==>
      r.Resolved? && |r.value| == |reply.predictions.value|
      && forall i :: 0 <= i < |r.value| ==>
           r.value[i].description == reply.predictions.value[i].description
           && r.value[i].placeId == reply.predictions.value[i].placeId
    ensures reply.status == "OK" && reply.predictions.Some? ==> r == Resolved(FormatPredictions(reply.predictions.value))
    ensures r.Rejected? ==> r.error == Bare("Error fetching predictions via AutocompleteService: " + reply.status)
  {
    if reply.status == "OK" && reply.predictions.Some? then Resolved(FormatPredictions(reply.predictions.value))
    else if reply.status == "ZERO_RESULTS" then Resolved([])
    else Rejected(Bare("Error fetching predictions via AutocompleteService: " + reply.status))
  }

  /** The result of `importLibrary("places")` as predictions use it. */
  datatype PlacesLibrary = PlacesImportFailed(error: Rejection) | NoAutocompleteService | PlacesReady

  /** The error the prediction setup throws, if any: a rejected loader, a
      failed import, or a missing AutocompleteService class. */
  function PredictionSetupError(loaded: Settled<()>, places: PlacesLibrary): (r: Option<Rejection>)
    ensures r.None? <==> loaded.Resolved? && places.PlacesReady?
    ensures loaded.Rejected? ==> r == Some(loaded.error)
    ensures loaded.Resolved? && places.PlacesImportFailed? ==> r == Some(places.error)
    ensures loaded.Resolved? && places.NoAutocompleteService? ==>
      r == Some(ErrorObject("AutocompleteService class is not available."))
  {
    if loaded.Rejected? then Some(loaded.error)
    else match places
      case PlacesImportFailed(e) => Some(e)
      case NoAutocompleteService => Some(ErrorObject("AutocompleteService class is not available."))
      case PlacesReady => None
  }

  // ---------------------------------------------------------------------
  // Place details

  /** What `place.fetchFields` fills in. */
  datatype PlaceDetails = PlaceDetails(body: Payload)

  datatype Place = Place(id: string, details: PlaceDetails)

  /** A `fetchPlaceDetails` call at its first `await`: either it already
      returned its rejection, or it waits holding the token it captured on
      entry and the loader's promise. */
  datatype DetailsCall =
    | DetailsRejected(error: Rejection)
    | DetailsPending(placeId: string, captured: SessionToken?, loader: LoadPromise)

  /** The outcome of a pending details call, given whether importing the
      places library failed and what `fetchFields` did. */
  function DetailsResult(placeId: string, loaded: Settled<()>, placesImport: Option<Rejection>, fetched: Settled<PlaceDetails>): (r: Settled<Place>)
    ensures r.Resolved? <==> loaded.Resolved? && placesImport.None? && fetched.Resolved?
    ensures r.Resolved? ==> r.value == Place(placeId, fetched.value)
    ensures loaded.Rejected? ==>
      r == Rejected(ErrorObject("Error fetching place details: " + MessageOrSelf(loaded.error)))
    ensures loaded.Resolved? && placesImport.Some? ==>
      r == Rejected(ErrorObject("Error fetching place details: " + MessageOrSelf(placesImport.value)))
    ensures loaded.Resolved? && placesImport.None? && fetched.Rejected? ==>
      r == Rejected(ErrorObject("Error fetching place details: " + MessageOrSelf(fetched.error)))
  {
    var failure :=
      if loaded.Rejected? then Some(loaded.error)
      else if placesImport.Some? then placesImport
      else if fetched.Rejected? then Some(fetched.error)
      else None;
    match failure
    case Some(e) => Rejected(ErrorObject("Error fetching place details: " + MessageOrSelf(e)))
    case None => Resolved(Place(placeId, fetched.value))
  }

  // ---------------------------------------------------------------------
  // Reverse geocoding

  datatype GeocoderResult = GeocoderResult(formattedAddress: string)

  /** The geocoder callback's branching. */
  function GeocodeResult(status: string, results: Option<seq<GeocoderResult>>): (r: Settled<string>)
    ensures r.Resolved? <==> status == "OK" && results.Some? && |results.value| > 0
    ensures r.Resolved? ==> r.value == results.value[0].formattedAddress
    ensures status == "OK" && r.Rejected? ==> r.error == Bare("No results found by Google Geocoder")
    ensures status != "OK" ==> r == Rejected(Bare("Google Geocoder failed due to: " + status))
  {
    if status == "OK" then
      if results.Some? && |results.value| > 0 then Resolved(results.value[0].formattedAddress)
      else Rejected(Bare("No results found by Google Geocoder"))
    else Rejected(Bare("Google Geocoder failed due to: " + status))
  }

  datatype GeocodingLibrary = GeocodingImportFailed(error: Rejection) | NoGeocoder | GeocodingReady

  // ---------------------------------------------------------------------
  // City lookup

  /** What `fetch` yields: a response with its status and what decoding its
      JSON body gives, or a transport error. */
  datatype HttpResponse = Response(status: nat, body: Settled<Payload>) | TransportFailure(error: Rejection)

  function DigitChar(d: nat): char
    requires d < 10
  {
    "0123456789"[d]
  }

  /** The decimal form of a status code, as a template literal prints it. */
  function DecimalString(n: nat): (r: string)
    ensures |r| >= 1
    ensures forall i :: 0 <= i < |r| ==> '0' <= r[i] <= '9'
    ensures n >= 10 ==> r[0] != '0'
  {
    if n < 10 then [DigitChar(n)] else DecimalString(n / 10) + [DigitChar(n % 10)]
  }

  function DigitValue(c: char): nat
    requires '0' <= c <= '9'
  {
    (c as int - '0' as int) as nat
  }

  function ParseDecimal(s: string): nat
    requires forall i :: 0 <= i < |s| ==> '0' <= s[i] <= '9'
  {
    if s == [] then 0 else 10 * ParseDecimal(s[..|s| - 1]) + DigitValue(s[|s| - 1])
  }

  /** The status printed in an error message can be read back. */
  lemma {:induction false} DecimalRoundTrip(n: nat)
    ensures ParseDecimal(DecimalString(n)) == n
  {
    var r := DecimalString(n);
    if n < 10 {
      DigitRoundTrip(n);
    } else {
      var q, d := n / 10, n % 10;
      DecimalRoundTrip(q);
      DigitRoundTrip(d);
      assert r == DecimalString(q) + [DigitChar(d)];
      assert r[..|r| - 1] == DecimalString(q);
      assert ParseDecimal(r) == 10 * q + d;
    }
  }

  lemma DigitRoundTrip(d: nat)
    requires d < 10
    ensures DigitValue(DigitChar(d)) == d
  {
  }

  /** The error for a response that is neither ok nor 404. */
  function StatusMessage(status: nat): string {
    "Could not fetch weather data for city (" + DecimalString(status) + ")"
  }

  /** The error names the status unambiguously: different statuses give
      different messages. */
  lemma StatusMessageInjective(s1: nat, s2: nat)
    requires s1 != s2
    ensures StatusMessage(s1) != StatusMessage(s2)
  {
    var prefix := "Could not fetch weather data for city (";
    var d1, d2 := DecimalString(s1), DecimalString(s2);
    if StatusMessage(s1) == StatusMessage(s2) {
      var m := StatusMessage(s1);
      assert |d1| == |d2|;
      assert d1 == m[|prefix|..|prefix| + |d1|];
      assert d2 == m[|prefix|..|prefix| + |d2|];
      DecimalRoundTrip(s1);
      DecimalRoundTrip(s2);
      assert false;
    }
  }

  /** `fetchDataByCityName`'s outcome: rejected before any request when the
      API key or the city name is missing; an ok response yields its decoded
      body, and a transport or decoding failure is rethrown; on a response
      that is not ok, a 404 reads as an unknown city and any other status is
      reported by number. */
  function CityLookup(apiKey: string, cityName: string, response: HttpResponse): (r: Settled<Payload>)
    ensures apiKey == "" ==> r == Rejected(Bare("OpenWeather API Key is missing."))
    ensures apiKey != "" && cityName == "" ==> r == Rejected(Bare("City name is required."))
    ensures apiKey != "" && cityName != "" ==>
      (r.Resolved? <==> response.Response? && 200 <= response.status <= 299 && response.body.Resolved?)
    ensures r.Resolved? ==> r == response.body
    ensures apiKey != "" && cityName != "" && response.Response? && 200 <= response.status <= 299 && response.body.Rejected? ==>
      r == response.body
    ensures apiKey != "" && cityName != "" && response.TransportFailure? ==> r == Rejected(response.error)
    ensures apiKey != "" && cityName != "" && response.Response? && response.status == 404 ==>
      r == Rejected(ErrorObject("Could not find the city: \"" + cityName + "\""))
    ensures apiKey != "" && cityName != "" && response.Response? && !(200 <= response.status <= 299) && response.status != 404 ==>
      r == Rejected(ErrorObject(StatusMessage(response.status)))
  {
    if apiKey == "" then Rejected(Bare("OpenWeather API Key is missing."))
    else if cityName == "" then Rejected(Bare("City name is required."))
    else match response
      case TransportFailure(e) => Rejected(e)
      case Response(status, body) =>
        if 200 <= status <= 299 then body
        else if status == 404 then Rejected(ErrorObject("Could not find the city: \"" + cityName + "\""))
        else Rejected(ErrorObject(StatusMessage(status)))
  }

  // ---------------------------------------------------------------------
  // Module-level state

  /** The two module-level singletons, and (ghost) how often the loader's
      initialisation ran and how many script tags it injected. */
  class ServiceState {
    var googleMapsApiPromise: LoadPromise?
    var autocompleteSessionToken: SessionToken?
    ghost var loaderRuns: nat
    ghost var scriptsInjected: nat

    /** The latch: the initialisation ran at most once, exactly when the
        promise is set, and injected at most one script. */
    ghost predicate Valid()
      reads this
    {
      loaderRuns <= 1 && scriptsInjected <= loaderRuns
      && (googleMapsApiPromise == null <==> loaderRuns == 0)
    }

    /** The latch after a call to the loader that found `before` there:
        the earlier promise if there was one, else one settled by `env`. */
    ghost predicate LatchedAfter(before: LoadPromise?, env: LoadEnvironment)
      reads this
    {
      googleMapsApiPromise != null
      && (before != null ==> googleMapsApiPromise == before)
      && (before == null ==> googleMapsApiPromise.outcome == LoadOutcome(env))
    }

    constructor ()
      ensures Valid() && googleMapsApiPromise == null && autocompleteSessionToken == null
      ensures loaderRuns == 0 && scriptsInjected == 0
    {
      googleMapsApiPromise := null;
      autocompleteSessionToken := null;
      loaderRuns := 0;
      scriptsInjected := 0;
    }

    /** Creates the loader's promise on the first call, in the environment
        of that call, and returns the same promise on every later call. */
    method LoadGoogleMapsApi(env: LoadEnvironment) returns (p: LoadPromise)
      requires Valid()
      modifies this`googleMapsApiPromise, this`loaderRuns, this`scriptsInjected
      ensures Valid() && googleMapsApiPromise == p && loaderRuns == 1
      ensures old(googleMapsApiPromise) != null ==>
        p == old(googleMapsApiPromise) && scriptsInjected == old(scriptsInjected)
      ensures old(googleMapsApiPromise) == null ==>
        fresh(p) && p.outcome == LoadOutcome(env) && scriptsInjected == (if InjectsScript(env) then 1 else 0)
    {
      if googleMapsApiPromise != null {
        return googleMapsApiPromise;
      }
      p := new LoadPromise(LoadOutcome(env));
      googleMapsApiPromise := p;
      loaderRuns := 1;
      if InjectsScript(env) {
        scriptsInjected := 1;
      }
    }

    /** Predictions for an input: blank input resolves with none and touches
        nothing; otherwise the loader is awaited, a failed setup clears the
        token, and a successful one creates the token only if none is live
        and sends it with the request. `sent` is the token the request
        carried. */
    method GetAutocompletePredictions(input: string, env: LoadEnvironment, places: PlacesLibrary, reply: PredictionsReply)
      returns (r: Settled<seq<FormattedPrediction>>, sent: SessionToken?)
      requires Valid()
      modifies this`googleMapsApiPromise, this`loaderRuns, this`scriptsInjected, this`autocompleteSessionToken
      ensures Valid()
      ensures Blank(input) ==>
        r == Resolved([]) && sent == null
        && autocompleteSessionToken == old(autocompleteSessionToken) && googleMapsApiPromise == old(googleMapsApiPromise)
        && loaderRuns == old(loaderRuns) && scriptsInjected == old(scriptsInjected)
      ensures !Blank(input) ==> LatchedAfter(old(googleMapsApiPromise), env)
      ensures !Blank(input) && PredictionSetupError(googleMapsApiPromise.outcome, places).Some? ==>
        var e := PredictionSetupError(googleMapsApiPromise.outcome, places).value;
        r == Rejected(Bare("Error setting up predictions: " + MessageOrSelf(e)))
        && sent == null && autocompleteSessionToken == null
      ensures !Blank(input) && PredictionSetupError(googleMapsApiPromise.outcome, places).None? ==>
        r == PredictionsResult(reply) && sent != null && autocompleteSessionToken == sent
        && (old(autocompleteSessionToken) != null ==> sent == old(autocompleteSessionToken))
        && (old(autocompleteSessionToken) == null ==> fresh(sent))
    {
      if Blank(input) {
        return Resolved([]), null;
      }
      var loader := LoadGoogleMapsApi(env);
      var failure := PredictionSetupError(loader.outcome, places);
      if failure.Some? {
        autocompleteSessionToken := null;
        return Rejected(Bare("Error setting up predictions: " + MessageOrSelf(failure.value))), null;
      }
      if autocompleteSessionToken == null {
        autocompleteSessionToken := new SessionToken();
      }
      sent := autocompleteSessionToken;
      r := PredictionsResult(reply);
    }

    /** The synchronous part of `fetchPlaceDetails`: captures the live
        token, rejects an invalid place id before anything else, and
        otherwise starts awaiting the loader. */
    method BeginPlaceDetails(placeId: Option<string>, env: LoadEnvironment) returns (call: DetailsCall)
      requires Valid()
      modifies this`googleMapsApiPromise, this`loaderRuns, this`scriptsInjected
      ensures Valid() && autocompleteSessionToken == old(autocompleteSessionToken)
      ensures (placeId.None? || placeId.value == "") ==>
        call == DetailsRejected(Bare("Valid Place ID string is required for fetchPlaceDetails"))
        && googleMapsApiPromise == old(googleMapsApiPromise)
        && loaderRuns == old(loaderRuns) && scriptsInjected == old(scriptsInjected)
      ensures placeId.Some? && placeId.value != "" ==>
        call.DetailsPending? && call.placeId == placeId.value
        && call.captured == autocompleteSessionToken && call.loader == googleMapsApiPromise
        && LatchedAfter(old(googleMapsApiPromise), env)
    {
      var captured := autocompleteSessionToken;
      if placeId.None? || placeId.value == "" {
        return DetailsRejected(Bare("Valid Place ID string is required for fetchPlaceDetails"));
      }
      var loader := LoadGoogleMapsApi(env);
      call := DetailsPending(placeId.value, captured, loader);
    }

    /** The rest of `fetchPlaceDetails`, once its awaits settle (other calls
        may have run meanwhile): the result, and in `finally` the token is
        retired only if it is still the one captured on entry. An early
        rejection never reaches the `finally`. */
    method FinishPlaceDetails(call: DetailsCall, placesImport: Option<Rejection>, fetched: Settled<PlaceDetails>)
      returns (r: Settled<Place>)
      modifies this`autocompleteSessionToken
      ensures call.DetailsRejected? ==>
        r == Rejected(call.error) && autocompleteSessionToken == old(autocompleteSessionToken)
      ensures call.DetailsPending? ==>
        r == DetailsResult(call.placeId, call.loader.outcome, placesImport, fetched)
      ensures call.DetailsPending? ==>
        autocompleteSessionToken ==
          if call.captured != null && old(autocompleteSessionToken) == call.captured then null
          else old(autocompleteSessionToken)
    {
      match call {
        case DetailsRejected(e) =>
          r := Rejected(e);
        case DetailsPending(placeId, captured, loader) =>
          r := DetailsResult(placeId, loader.outcome, placesImport, fetched);
          if captured != null && autocompleteSessionToken == captured {
            autocompleteSessionToken := null;
          }
      }
    }

    /** Reverse geocoding: awaits the loader and the geocoding library, then
        maps the geocoder's callback. */
    method ReverseGeocodeGoogle(env: LoadEnvironment, library: GeocodingLibrary, status: string, results: Option<seq<GeocoderResult>>)
      returns (r: Settled<string>)
      requires Valid()
      modifies this`googleMapsApiPromise, this`loaderRuns, this`scriptsInjected
      ensures Valid() && LatchedAfter(old(googleMapsApiPromise), env)
      ensures googleMapsApiPromise.outcome.Rejected? ==>
        r == Rejected(Bare("Google reverse geocoding failed: " + MessageOrSelf(googleMapsApiPromise.outcome.error)))
      ensures googleMapsApiPromise.outcome.Resolved? && library.GeocodingImportFailed? ==>
        r == Rejected(Bare("Google reverse geocoding failed: " + MessageOrSelf(library.error)))
      ensures googleMapsApiPromise.outcome.Resolved? && library.NoGeocoder? ==>
        r == Rejected(Bare("Google reverse geocoding failed: Google Maps Geocoder class not available after importing library."))
      ensures googleMapsApiPromise.outcome.Resolved? && library.GeocodingReady? ==> r == GeocodeResult(status, results)
    {
      var loader := LoadGoogleMapsApi(env);
      if loader.outcome.Rejected? {
        return Rejected(Bare("Google reverse geocoding failed: " + MessageOrSelf(loader.outcome.error)));
      }
      match library {
        case GeocodingImportFailed(e) =>
          r := Rejected(Bare("Google reverse geocoding failed: " + MessageOrSelf(e)));
        case NoGeocoder =>
          r := Rejected(Bare("Google reverse geocoding failed: Google Maps Geocoder class not available after importing library."));
        case GeocodingReady =>
          r := GeocodeResult(status, results);
      }
    }
  }
  // ---------------------------------------------------------------------
  // Callers

  /** Three callers in different page states share the first caller's
      promise, and only one script tag is ever injected. */
  method ManyCallersOneLoad() returns (p1: LoadPromise, p2: LoadPromise, p3: LoadPromise, ghost injected: nat)
    ensures p1 == p2 && p2 == p3 && p1.outcome == Resolved(())
    ensures injected == 1
  {
    var s := new ServiceState();
    p1 := s.LoadGoogleMapsApi(NoScriptTag(BecameReady));
    p2 := s.LoadGoogleMapsApi(NoScriptTag(ScriptError));
    p3 := s.LoadGoogleMapsApi(ApiPresent);
    injected := s.scriptsInjected;
  }

  /** A load that timed out stays failed: a later prediction fails its setup
      even though the SDK is there by then, and the token is cleared. */
  method FailedLoadIsPermanent(input: string, reply: PredictionsReply) returns (r: Settled<seq<FormattedPrediction>>)
    requires !Blank(input)
    ensures r == Rejected(Bare("Error setting up predictions: " + "Timeout waiting for Google Maps API."))
  {
    var s := new ServiceState();
    var p := s.LoadGoogleMapsApi(NoScriptTag(NeverReady));
    assert p.outcome == Rejected(ErrorObject("Timeout waiting for Google Maps API."));
    var sent;
    r, sent := s.GetAutocompletePredictions(input, ApiPresent, PlacesReady, reply);
    assert PredictionSetupError(p.outcome, PlacesReady) == Some(ErrorObject("Timeout waiting for Google Maps API."));
    assert s.autocompleteSessionToken == null;
    assert MessageOrSelf(ErrorObject("Timeout waiting for Google Maps API.")) == "Timeout waiting for Google Maps API.";
  }

  /** Two predictions with no retirement in between send the same token; a
      slow details call that captured that token does not retire the newer
      token a later prediction created after a faster details call retired
      the old one. */
  method StaleRetirementScenario(input: string, reply: PredictionsReply, fetched: Settled<PlaceDetails>)
    returns (first: SessionToken?, second: SessionToken?, live: SessionToken?)
    requires !Blank(input)
    ensures first != null && second != null && first != second && live == second
  {
    var s := new ServiceState();
    var r, a := s.GetAutocompletePredictions(input, ApiPresent, PlacesReady, reply);
    ghost var loader := s.googleMapsApiPromise;
    assert loader.outcome == Resolved(());
    var r', a' := s.GetAutocompletePredictions(input, ApiPresent, PlacesReady, reply);
    assert a' == a;
    var slow := s.BeginPlaceDetails(Some("slow"), ApiPresent);
    var fast := s.BeginPlaceDetails(Some("fast"), ApiPresent);
    assert slow.captured == a && fast.captured == a;
    var d := s.FinishPlaceDetails(fast, None, fetched);
    assert s.autocompleteSessionToken == null && s.googleMapsApiPromise == loader;
    var r'', b := s.GetAutocompletePredictions(input, ApiPresent, PlacesReady, reply);
    assert b != null && b != a;
    d := s.FinishPlaceDetails(slow, None, fetched);
    first, second, live := a, b, s.autocompleteSessionToken;
  }
}
