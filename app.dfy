/** The `App` component of src/App.js: its state record, the submit handler
    `userInput` with its two `setState` updates, and `render`, which hands the
    state to `Results`.  The two network replies are parameters. */
module WeatherApp {
  import opened Wrappers
  import opened Display

  /** `data.results[k].locations[j]` of the geocoding reply. */
  datatype GeoLocation = GeoLocation(lat: real, lng: real, geocodeQualityCode: string)

  /** `data.results[k]` of the geocoding reply. */
  datatype GeocodeResult = GeocodeResult(locations: seq<GeoLocation>)

  /** The two requests the handler issues, with the values they carry; the
      URLs, keys and proxy prefix are not modelled. */
  datatype Request = GeocodeRequest(location: string) | ForecastRequest(lat: Option<real>, lon: Option<real>)

  /** `this.state`; the empty-string `lat` and `lon` are `None`. */
  datatype AppState = AppState(lat: Option<real>, lon: Option<real>, quality: string, summary: string, forecast: Forecast)

  /** The record the constructor assigns to `this.state`. */
  const InitialState := AppState(None, None, "", "", EmptyForecast)

  /** The handler's effect: the final state and the requests issued, in order. */
  datatype Outcome = Outcome(state: AppState, requests: seq<Request>)

  /** The summary shown is the stored payload's own summary, and is empty while
      no payload is stored; this is what keeps `Results` from reading a missing
      `currently` block. */
  predicate SummaryMatches(st: AppState) {
    if st.forecast.currently.Some? then st.summary == st.forecast.currently.value.summary
    else st.summary == ""
  }

  /** `data.results[0].locations[0]`, when both arrays are non-empty. */
  function FirstLocation(results: seq<GeocodeResult>): Option<GeoLocation> {
    if |results| > 0 && |results[0].locations| > 0 then Some(results[0].locations[0]) else None
  }

  /** The first `setState`: when the reply has a first location, its latitude,
      longitude and quality code replace the stored ones; otherwise reading it
      throws, the rest of the chain is skipped, and the result is `None`. */
  function Geocoded(st: AppState, results: seq<GeocodeResult>): (r: Option<AppState>)
    ensures r.Some? <==> |results| > 0 && |results[0].locations| > 0
    ensures r.Some? ==>
      var loc := results[0].locations[0];
      r.value.lat == Some(loc.lat) && r.value.lon == Some(loc.lng) && r.value.quality == loc.geocodeQualityCode
    ensures r.Some? ==> r.value.summary == st.summary && r.value.forecast == st.forecast
    ensures r.Some? && SummaryMatches(st) ==> SummaryMatches(r.value)
  {
    match FirstLocation(results)
    case None => None
    case Some(loc) => Some(st.(lat := Some(loc.lat), lon := Some(loc.lng), quality := loc.geocodeQualityCode))
  }

  /** The second `setState`: when the payload has a `currently` block, its
      summary and the whole payload replace the stored ones; otherwise reading
      it throws and the result is `None`. */
  function ForecastArrived(st: AppState, data: Forecast): (r: Option<AppState>)
    ensures r.Some? <==> data.currently.Some?
    ensures r.Some? ==> r.value.summary == data.currently.value.summary && r.value.forecast == data
    ensures r.Some? ==> r.value.lat == st.lat && r.value.lon == st.lon && r.value.quality == st.quality
    ensures r.Some? ==> SummaryMatches(r.value)
  {
    match data.currently
    case None => None
    case Some(now) => Some(st.(summary := now.summary, forecast := data))
  }

  /** The whole `userInput` chain for one submitted location, given the two
      replies: an empty location returns at once; otherwise the geocoding
      request, the first update, the forecast request built from the state
      just written, and the second update.  The quality code plays no part. */
  function Submitted(st: AppState, location: string, results: seq<GeocodeResult>, data: Forecast): (out: Outcome)
    ensures |location| == 0 ==> out == Outcome(st, [])
    ensures |location| > 0 ==> 1 <= |out.requests| <= 2 && out.requests[0] == GeocodeRequest(location)
    ensures |out.requests| == 2 <==> |location| > 0 && FirstLocation(results).Some?
    ensures |out.requests| == 2 ==>
      out.requests[1] == ForecastRequest(Some(results[0].locations[0].lat), Some(results[0].locations[0].lng))
    ensures |out.requests| < 2 ==> out.state == st
    ensures |out.requests| == 2 ==>
      var loc := results[0].locations[0];
      out.state.lat == Some(loc.lat) && out.state.lon == Some(loc.lng) && out.state.quality == loc.geocodeQualityCode &&
      if data.currently.Some? then out.state.summary == data.currently.value.summary && out.state.forecast == data
      else out.state.summary == st.summary && out.state.forecast == st.forecast
    ensures SummaryMatches(st) ==> SummaryMatches(out.state)
  {
    if |location| == 0 then Outcome(st, [])
    else match Geocoded(st, results)
      case None => Outcome(st, [GeocodeRequest(location)])
      case Some(located) =>
        var requests := [GeocodeRequest(location), ForecastRequest(located.lat, located.lon)];
        match ForecastArrived(located, data)
        case None => Outcome(located, requests)
        case Some(loaded) => Outcome(loaded, requests)
  }

  /** What `render` shows for a state. */
  function ViewOf(st: AppState): View
    requires SummaryMatches(st)
  {
    Results(st.summary, st.quality, st.forecast)
  }

  /** Submitting an empty location issues no request and changes no field. */
  lemma EmptySubmitIsNoop(st: AppState, results: seq<GeocodeResult>, data: Forecast)
    ensures Submitted(st, "", results, data) == Outcome(st, [])
  {
  }

  /** The quality code does not gate the forecast request: two geocoding
      replies with the same coordinates lead to the same requests and the same
      summary and payload, whatever their quality codes. */
  lemma QualityDoesNotGate(st: AppState, location: string,
                             results1: seq<GeocodeResult>, results2: seq<GeocodeResult>, data: Forecast)
    requires FirstLocation(results1).Some? && FirstLocation(results2).Some?
    requires FirstLocation(results1).value.lat == FirstLocation(results2).value.lat
    requires FirstLocation(results1).value.lng == FirstLocation(results2).value.lng
    ensures Submitted(st, location, results1, data).requests == Submitted(st, location, results2, data).requests
    ensures Submitted(st, location, results1, data).state.summary == Submitted(st, location, results2, data).state.summary
    ensures Submitted(st, location, results1, data).state.forecast == Submitted(st, location, results2, data).state.forecast
  {
  }

  /** When both replies are complete, the page ends up showing the error
      message for a low-quality code and the new payload's panel otherwise
      (provided its summary is not empty), after issuing both requests. */
  lemma ShownAfterSubmit(st: AppState, location: string, results: seq<GeocodeResult>, data: Forecast)
    requires |location| > 0
    requires FirstLocation(results).Some?
    requires data.currently.Some? && data.currently.value.summary != ""
    ensures var out := Submitted(st, location, results, data);
      var loc := results[0].locations[0];
      SummaryMatches(out.state) &&
      out.requests == [GeocodeRequest(location), ForecastRequest(Some(loc.lat), Some(loc.lng))] &&
      ViewOf(out.state) == if LowQuality(loc.geocodeQualityCode) then ErrorView
                           else DataView(WeatherData(data, data.currently.value.summary))
  {
  }

  /** A forecast reply without a `currently` block leaves the previous summary
      and payload in place beside the new location's quality code, so the page
      keeps showing the earlier panel unless the new code is low quality. */
  lemma StalePanelAfterIncompleteForecast(st: AppState, location: string, results: seq<GeocodeResult>, data: Forecast)
    requires SummaryMatches(st) && st.summary != ""
    requires |location| > 0 && FirstLocation(results).Some?
    requires data.currently.None?
    ensures var out := Submitted(st, location, results, data);
      SummaryMatches(out.state) &&
      out.state.summary == st.summary && out.state.forecast == st.forecast &&
      ViewOf(out.state) == if LowQuality(results[0].locations[0].geocodeQualityCode) then ErrorView
                           else DataView(WeatherData(st.forecast, st.summary))
  {
  }

  /** Submitting the same location twice with the same replies ends in the
      same state and issues the same requests as submitting it once. */
  lemma SubmitIdempotent(st: AppState, location: string, results: seq<GeocodeResult>, data: Forecast)
    ensures var once := Submitted(st, location, results, data);
      Submitted(once.state, location, results, data) == once
  {
  }

  /** The page component, whose fields are the members of `this.state`. */
  class App {
    var lat: Option<real>
    var lon: Option<real>
    var quality: string
    var summary: string
    var forecast: Forecast

    function State(): AppState
      reads this
    {
      AppState(lat, lon, quality, summary, forecast)
    }

    ghost predicate Valid()
      reads this
    {
      SummaryMatches(State())
    }

    constructor ()
      ensures Valid() && State() == InitialState
    {
      lat, lon := None, None;
      quality := "";
      summary := "";
      forecast := EmptyForecast;
    }

    /** The geocoding reply's `.then`: writes `lat`, `lon` and `quality`, or
        reports that reading the first location threw. */
    method GeocodeLoaded(results: seq<GeocodeResult>) returns (ok: bool)
      requires Valid()
      modifies this
      ensures Valid()
      ensures ok == Geocoded(old(State()), results).Some?
      ensures State() == if ok then Geocoded(old(State()), results).value else old(State())
      ensures summary == old(summary) && forecast == old(forecast)
    {
      if |results| == 0 || |results[0].locations| == 0 {
        return false;
      }
      var loc := results[0].locations[0];
      lat, lon, quality := Some(loc.lat), Some(loc.lng), loc.geocodeQualityCode;
      ok := true;
    }

    /** The forecast reply's `.then`: writes `summary` and `forecast`, or
        reports that reading `currently` threw. */
    method ForecastLoaded(data: Forecast) returns (ok: bool)
      requires Valid()
      modifies this
      ensures Valid()
      ensures ok == ForecastArrived(old(State()), data).Some?
      ensures State() == if ok then ForecastArrived(old(State()), data).value else old(State())
      ensures lat == old(lat) && lon == old(lon) && quality == old(quality)
    {
      if data.currently.None? {
        return false;
      }
      summary, forecast := data.currently.value.summary, data;
      ok := true;
    }

    /** `userInput`: the empty-location guard, then the chained requests and
        updates, with the forecast request built from the state the first
        update wrote. */
    method UserInput(location: string, results: seq<GeocodeResult>, data: Forecast) returns (requests: seq<Request>)
      requires Valid()
      modifies this
      ensures Valid()
      ensures Outcome(State(), requests) == Submitted(old(State()), location, results, data)
    {
      if |location| == 0 {
        return [];
      }
      requests := [GeocodeRequest(location)];
      var located := GeocodeLoaded(results);
      if !located {
        return;
      }
      requests := requests + [ForecastRequest(lat, lon)];
      var loaded := ForecastLoaded(data);
    }

    /** `render`: the view `Results` selects from the state; a weather panel
        always shows the stored payload's own summary. */
    function Render(): (v: View)
      reads this
      requires Valid()
      ensures summary == "" ==> v == Nothing
      ensures v.DataView? ==> forecast.currently.Some? && v.panel.summary == forecast.currently.value.summary
    {
      ViewOf(State())
    }
  }
}
