/** The `App` component itself: its five state slots as fields, and one
    method per handler outcome. Each method states what it does to every
    field and what it sends, and is proved to agree with `SearchClient.Step`,
    so the lemmas proved there hold of any sequence of calls. */
module AppComponent {
  import opened Wrappers
  import opened JsString
  import opened SearchClient

  class App {
    var query: string
    var suggestions: seq<string>
    var events: seq<Event>
    var coords: Option<Coords>
    var statusMsg: string

    /** The fields as a state value. */
    function View(): State
      reads this
    {
      State(query, suggestions, events, coords, statusMsg)
    }

    /** Mounting: every slot at its initial value. */
    constructor ()
      ensures query == "" && suggestions == [] && events == [] && coords == None && statusMsg == ""
      ensures View() == Initial
    {
      query, suggestions, events, coords, statusMsg := "", [], [], None, "";
    }

    /** The suggestion effect, after a render in which `query` changed. */
    method RunSuggestionEffect() returns (sent: Option<Request>)
      modifies this`suggestions
      ensures sent == (if Trim(query) == "" then None else Some(SuggestLookup(query)))
      ensures suggestions == (if Trim(query) == "" then [] else old(suggestions))
      ensures Transition(View(), sent) == SuggestionEffect(old(View()))
    {
      if Trim(query) == "" {
        suggestions := [];
        sent := None;
        return;
      }
      sent := Some(SuggestLookup(query));
    }

    /** `setQuery(text)` and the effect it triggers when the value changes. */
    method SetQuery(text: string) returns (sent: Option<Request>)
      modifies this`query, this`suggestions
      ensures query == text
      ensures sent == (if text != old(query) && Trim(text) != "" then Some(SuggestLookup(text)) else None)
      ensures suggestions == (if text != old(query) && Trim(text) == "" then [] else old(suggestions))
      ensures Transition(View(), sent) == SearchClient.SetQuery(old(View()), text)
    {
      if text == query {
        sent := None;
        return;
      }
      query := text;
      sent := RunSuggestionEffect();
    }

    /** Typing in the city box. */
    method OnQueryChanged(text: string) returns (sent: Option<Request>)
      modifies this
      ensures query == text
      ensures sent == (if text != old(query) && Trim(text) != "" then Some(SuggestLookup(text)) else None)
      ensures suggestions == (if text != old(query) && Trim(text) == "" then [] else old(suggestions))
      ensures events == old(events) && coords == old(coords) && statusMsg == old(statusMsg)
      ensures Transition(View(), sent) == Step(old(View()), QueryChanged(text))
    {
      sent := SetQuery(text);
    }

    /** `handleSuggestionClick(city)`: the query becomes exactly `city`, the
        list is emptied, and the effect still runs for the new query. */
    method OnSuggestionClick(city: string) returns (sent: Option<Request>)
      modifies this
      ensures query == city && suggestions == []
      ensures sent == (if city != old(query) && Trim(city) != "" then Some(SuggestLookup(city)) else None)
      ensures events == old(events) && coords == old(coords) && statusMsg == old(statusMsg)
      ensures Transition(View(), sent) == Step(old(View()), SuggestionClick(city))
    {
      suggestions := [];
      sent := SetQuery(city);
    }

    /** A `/suggest` response replaces the list, whichever lookup it answers. */
    method OnSuggestResponse(cities: seq<string>)
      modifies this
      ensures suggestions == cities
      ensures query == old(query) && events == old(events) && coords == old(coords) && statusMsg == old(statusMsg)
      ensures Step(old(View()), SuggestResponse(cities)) == Transition(View(), None)
    {
      suggestions := cities;
    }

    /** `useMyLocation`: without a geolocation capability only the status
        changes; with one the status becomes "Locating..." and a position
        fix is requested. */
    method UseMyLocation(geolocationAvailable: bool) returns (sent: Option<Request>)
      modifies this
      ensures statusMsg == (if geolocationAvailable then Locating else GeoNotSupported)
      ensures sent == (if geolocationAvailable then Some(PositionFix) else None)
      ensures query == old(query) && suggestions == old(suggestions) && events == old(events) && coords == old(coords)
      ensures Transition(View(), sent) == Step(old(View()), if geolocationAvailable then GeoRequested else GeoUnsupported)
    {
      if !geolocationAvailable {
        statusMsg := GeoNotSupported;
        sent := None;
        return;
      }
      statusMsg := Locating;
      sent := Some(PositionFix);
    }

    /** A position fix: the coordinates become exactly the reported pair. */
    method OnGeoSuccess(pos: Coords, latShown: string, lonShown: string)
      modifies this
      ensures coords == Some(pos) && statusMsg == GotLocation(latShown, lonShown)
      ensures query == old(query) && suggestions == old(suggestions) && events == old(events)
      ensures Step(old(View()), GeoSuccess(pos, latShown, lonShown)) == Transition(View(), None)
    {
      coords := Some(pos);
      statusMsg := GotLocation(latShown, lonShown);
    }

    /** A failed fix: only the status changes; earlier coordinates stay. */
    method OnGeoFailure()
      modifies this
      ensures statusMsg == LocationFailed
      ensures query == old(query) && suggestions == old(suggestions) && events == old(events) && coords == old(coords)
      ensures Step(old(View()), GeoFailure) == Transition(View(), None)
    {
      statusMsg := LocationFailed;
    }

    /** The parameter set of `fetchEvents`, built one `set` at a time from
        the coordinates and the trimmed query; it is `ComposeParams`. */
    method BuildParams() returns (params: map<string, string>)
      ensures params == ComposeParams(coords, query)
    {
      params := map[];
      if coords.Some? {
        params := params["lat" := coords.value.lat];
        params := params["lon" := coords.value.lon];
      }
      var city := Trim(query);
      if city != "" {
        params := params["city" := city];
      }
      assert params == ComposeParams(coords, query);
    }

    /** `fetchEvents`: the status becomes "Searching events..." before any
        response, the events stay as they are, and the search is sent with
        the parameter set of the current coordinates and query. */
    method FetchEvents() returns (params: map<string, string>)
      modifies this
      ensures statusMsg == Searching
      ensures params == ComposeParams(coords, query)
      ensures query == old(query) && suggestions == old(suggestions) && events == old(events) && coords == old(coords)
      ensures Step(old(View()), SearchStart) == Transition(View(), Some(EventsSearch(params)))
    {
      ghost var before := View();
      params := BuildParams();
      statusMsg := Searching;
      assert View() == before.(status := Searching);
      assert Step(before, SearchStart) == Transition(before.(status := Searching), Some(EventsSearch(params)));
    }

    /** An `{"error": detail}` response with a truthy `detail`: the events
        are emptied and the status is the generic error, whatever `detail`
        says. */
    method OnErrorEnvelope(detail: string)
      modifies this
      ensures events == [] && statusMsg == EventsError
      ensures query == old(query) && suggestions == old(suggestions) && coords == old(coords)
      ensures Step(old(View()), ErrorEnvelope(detail)) == Transition(View(), None)
    {
      events := [];
      statusMsg := EventsError;
    }

    /** An array response: the events become exactly that array; the status
        is cleared when it has entries and says "No events found." when not. */
    method OnEventsArray(data: seq<Event>)
      modifies this
      ensures events == data
      ensures statusMsg == (if |data| > 0 then "" else NoEvents)
      ensures query == old(query) && suggestions == old(suggestions) && coords == old(coords)
      ensures Step(old(View()), EventsArray(data)) == Transition(View(), None)
    {
      events := data;
      statusMsg := if |data| > 0 then "" else NoEvents;
    }

    /** No usable response: the status says so and the events stay. */
    method OnTransportFailure()
      modifies this
      ensures statusMsg == FetchFailed
      ensures query == old(query) && suggestions == old(suggestions) && events == old(events) && coords == old(coords)
      ensures Step(old(View()), TransportFailure) == Transition(View(), None)
    {
      statusMsg := FetchFailed;
    }
  }
}
