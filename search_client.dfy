/** The state machine of the event-search page (`App` in the client script):
    its five state slots, the request each handler sends, and what each
    asynchronous completion does to the slots. Completions are ordinary
    inputs that may arrive in any order; nothing here discards a late one. */
module SearchClient {
  import opened Wrappers
  import opened JsString

  /** A position fix. Each coordinate is kept as the text the browser's
      number-to-string conversion gives it, so it reaches the request
      parameters unchanged. */
  datatype Coords = Coords(lat: string, lon: string)

  /** One entry of the `/events` response; a missing `url` marks tier-gated
      content. */
  datatype Event = Event(title: string, datetime: string, venue: Option<string>, url: Option<string>)

  /** The component's state slots `query`, `suggestions`, `events`, `coords`
      and `statusMsg`. */
  datatype State = State(
    query: string,
    suggestions: seq<string>,
    events: seq<Event>,
    coords: Option<Coords>,
    status: string)

  /** The state after the first render (whose suggestion effect sees an empty
      query and clears the already empty list). */
  const Initial := State("", [], [], None, "")

  const GeoNotSupported := "Geolocation not supported."
  const Locating := "Locating..."
  const LocationFailed := "Failed to get location."
  const Searching := "Searching events..."
  const EventsError := "Error fetching events. See console."
  const NoEvents := "No events found."
  const FetchFailed := "Fetch failed."

  /** The confirmation after a fix; `latShown` and `lonShown` are the
      three-decimal renderings of the coordinates. */
  function GotLocation(latShown: string, lonShown: string): string {
    "Got location (" + latShown + ", " + lonShown + ")"
  }

  /** What a handler sends out: a `/suggest` lookup keyed by the raw query,
      an `/events` search with its parameter set, or a device position
      request. */
  datatype Request =
    | SuggestLookup(q: string)
    | EventsSearch(params: map<string, string>)
    | PositionFix

  /** User actions and asynchronous completions. */
  datatype Input =
    | QueryChanged(text: string)               // typing in the city box
    | SuggestionClick(city: string)
    | SuggestResponse(cities: seq<string>)     // a `/suggest` response, whichever lookup it answers
    | SuggestFailure                           // a `/suggest` lookup that failed (only logged)
    | GeoUnsupported                           // "Use My Location" without a geolocation capability
    | GeoRequested                             // "Use My Location" with one
    | GeoSuccess(pos: Coords, latShown: string, lonShown: string)
    | GeoFailure
    | SearchStart                              // "Search Events"
    | ErrorEnvelope(detail: string)            // `{"error": detail}` from `/events`, `detail` truthy in JavaScript
    | EventsArray(data: seq<Event>)            // a JSON array from `/events`
    | TransportFailure                         // no usable response from `/events`

  /** The state after an input, and the request it sent, if any. */
  datatype Transition = Transition(state: State, sent: Option<Request>)

  /** The parameter set of an `/events` search: `lat` and `lon` exactly when
      there are coordinates, with their values unchanged; `city` exactly when
      the trimmed query is non-empty, with the trimmed query as its value;
      no other key. Coordinates and city are not exclusive. */
  function ComposeParams(coords: Option<Coords>, query: string): (p: map<string, string>)
    ensures "lat" in p <==> coords.Some?
    ensures "lon" in p <==> coords.Some?
    ensures coords.Some? ==> p["lat"] == coords.value.lat && p["lon"] == coords.value.lon
    ensures "city" in p <==> Trim(query) != ""
    ensures "city" in p ==> p["city"] == Trim(query)
    ensures p.Keys <= {"lat", "lon", "city"}
  {
    var located := if coords.Some? then map["lat" := coords.value.lat, "lon" := coords.value.lon] else map[];
    if Trim(query) != "" then located["city" := Trim(query)] else located
  }

  /** The suggestion effect, run after a render in which `query` changed: a
      query that is empty or all white space clears the list without a
      lookup; any other query is looked up as typed and the state is left
      as it is. */
  function SuggestionEffect(s: State): (r: Transition)
    ensures r.sent.Some? <==> !AllWhiteSpace(s.query)
    ensures r.sent.Some? ==> r == Transition(s, Some(SuggestLookup(s.query)))
    ensures r.sent.None? ==> r.state == s.(suggestions := [])
  {
    TrimEmptyIff(s.query);
    if Trim(s.query) == "" then Transition(s.(suggestions := []), None)
    else Transition(s, Some(SuggestLookup(s.query)))
  }

  /** `setQuery(text)`: the query becomes `text`; setting the value it
      already has re-renders nothing, so the suggestion effect runs only
      when the query really changes. Events, coordinates and status are
      never touched. */
  function SetQuery(s: State, text: string): (r: Transition)
    ensures r.state.query == text
    ensures text == s.query ==> r == Transition(s, None)
    ensures text != s.query ==> r == SuggestionEffect(s.(query := text))
    ensures r.state.events == s.events && r.state.coords == s.coords && r.state.status == s.status
  {
    if text == s.query then Transition(s, None)
    else SuggestionEffect(s.(query := text))
  }

  /** One handler outcome. Only typing, a click, "Use My Location" with a
      geolocation capability and "Search Events" send a request
      (`StepFrame` says which slots each outcome writes). */
  function Step(s: State, i: Input): (r: Transition)
    ensures r.sent.Some? ==> i.QueryChanged? || i.SuggestionClick? || i.GeoRequested? || i.SearchStart?
  {
    match i
    case QueryChanged(text) => SetQuery(s, text)
    case SuggestionClick(city) => SetQuery(s.(suggestions := []), city)
    case SuggestResponse(cities) => Transition(s.(suggestions := cities), None)
    case SuggestFailure => Transition(s, None)
    case GeoUnsupported => Transition(s.(status := GeoNotSupported), None)
    case GeoRequested => Transition(s.(status := Locating), Some(PositionFix))
    case GeoSuccess(pos, latShown, lonShown) =>
      Transition(s.(coords := Some(pos), status := GotLocation(latShown, lonShown)), None)
    case GeoFailure => Transition(s.(status := LocationFailed), None)
    case SearchStart =>
      Transition(s.(status := Searching), Some(EventsSearch(ComposeParams(s.coords, s.query))))
    case ErrorEnvelope(_) => Transition(s.(events := [], status := EventsError), None)
    case EventsArray(data) =>
      Transition(s.(events := data, status := if |data| > 0 then "" else NoEvents), None)
    case TransportFailure => Transition(s.(status := FetchFailed), None)
  }

  /** The state after a sequence of inputs, delivered one at a time. A slot
      that no input of the trace touches keeps its value. */
  function Run(s: State, trace: seq<Input>): (r: State)
    ensures SameOutside(s, r, TouchedBy(trace))
    decreases |trace|
  {
    if trace == [] then s
    else
      var t := Step(s, trace[0]).state;
      var r := Run(t, trace[1..]);
      StepFrame(s, trace[0]);
      assert TouchedBy(trace) == Touches(trace[0]) + TouchedBy(trace[1..]);
      r
  }

  /** The slots some input of `trace` touches. */
  function TouchedBy(trace: seq<Input>): set<Slot>
    decreases |trace|
  {
    if trace == [] then {} else Touches(trace[0]) + TouchedBy(trace[1..])
  }

  // ---------------------------------------------------------------------
  // Which inputs write which slot: a reference table independent of Step
  // ---------------------------------------------------------------------

  /** The status message an input leaves, if it sets one. */
  function StatusWrite(i: Input): Option<string> {
    match i
    case GeoUnsupported => Some(GeoNotSupported)
    case GeoRequested => Some(Locating)
    case GeoSuccess(_, latShown, lonShown) => Some(GotLocation(latShown, lonShown))
    case GeoFailure => Some(LocationFailed)
    case SearchStart => Some(Searching)
    case ErrorEnvelope(_) => Some(EventsError)
    case EventsArray(data) => Some(if data == [] then NoEvents else "")
    case TransportFailure => Some(FetchFailed)
    case _ => None
  }

  /** The event list an input installs, if it installs one. */
  function EventsWrite(i: Input): Option<seq<Event>> {
    match i
    case ErrorEnvelope(_) => Some([])
    case EventsArray(data) => Some(data)
    case _ => None
  }

  /** The coordinates an input installs, if it installs any. */
  function CoordsWrite(i: Input): Option<Option<Coords>> {
    match i
    case GeoSuccess(pos, _, _) => Some(Some(pos))
    case _ => None
  }

  /** The query an input installs, if it installs one. */
  function QueryWrite(i: Input): Option<string> {
    match i
    case QueryChanged(text) => Some(text)
    case SuggestionClick(city) => Some(city)
    case _ => None
  }

  /** The value of a slot after `trace`: the last value written to it, or
      `current` when nothing in `trace` writes it. */
  function LastWrite<T>(current: T, trace: seq<Input>, write: Input -> Option<T>): T
    decreases |trace|
  {
    if trace == [] then current
    else LastWrite(write(trace[0]).GetOr(current), trace[1..], write)
  }

  /** The five slots of the state. */
  datatype Slot = QuerySlot | SuggestionsSlot | EventsSlot | CoordsSlot | StatusSlot

  /** The slots an input may write. */
  function Touches(i: Input): set<Slot> {
    match i
    case QueryChanged(_) => {QuerySlot, SuggestionsSlot}
    case SuggestionClick(_) => {QuerySlot, SuggestionsSlot}
    case SuggestResponse(_) => {SuggestionsSlot}
    case SuggestFailure => {}
    case GeoSuccess(_, _, _) => {CoordsSlot, StatusSlot}
    case ErrorEnvelope(_) => {EventsSlot, StatusSlot}
    case EventsArray(_) => {EventsSlot, StatusSlot}
    case _ => {StatusSlot}
  }

  const AllSlots: set<Slot> := {QuerySlot, SuggestionsSlot, EventsSlot, CoordsSlot, StatusSlot}

  /** `t` agrees with `s` on every slot outside `slots`. */
  predicate SameOutside(s: State, t: State, slots: set<Slot>) {
    && (QuerySlot !in slots ==> t.query == s.query)
    && (SuggestionsSlot !in slots ==> t.suggestions == s.suggestions)
    && (EventsSlot !in slots ==> t.events == s.events)
    && (CoordsSlot !in slots ==> t.coords == s.coords)
    && (StatusSlot !in slots ==> t.status == s.status)
  }

  // ---------------------------------------------------------------------
  // Properties
  // ---------------------------------------------------------------------

  /** Running two inputs is stepping twice. */
  lemma RunPair(s: State, a: Input, b: Input)
    ensures Run(s, [a, b]) == Step(Step(s, a).state, b).state
  {
    var t := Step(s, a).state;
    assert [a, b][1..] == [b];
    assert Run(s, [a, b]) == Run(t, [b]);
    assert Run(t, [b]) == Run(Step(t, b).state, []);
  }

  /** Running a trace in two parts is running it whole. */
  lemma {:induction false} RunAppend(s: State, first: seq<Input>, second: seq<Input>)
    ensures Run(s, first + second) == Run(Run(s, first), second)
    decreases |first|
  {
    if first != [] {
      assert (first + second)[1..] == first[1..] + second;
      RunAppend(Step(s, first[0]).state, first[1..], second);
    } else {
      assert first + second == second;
    }
  }

  /** Every input changes only the slots it is listed as touching. */
  lemma StepFrame(s: State, i: Input)
    ensures SameOutside(s, Step(s, i).state, Touches(i))
  {
  }

  /** Status, events, coordinates and query each hold the value last written
      to them: a later completion overwrites an earlier one whatever order
      they arrive in, and a slot no input of the trace writes keeps its
      value. */
  lemma {:induction false} LastWriteWins(s: State, trace: seq<Input>)
    ensures Run(s, trace).status == LastWrite(s.status, trace, StatusWrite)
    ensures Run(s, trace).events == LastWrite(s.events, trace, EventsWrite)
    ensures Run(s, trace).coords == LastWrite(s.coords, trace, CoordsWrite)
    ensures Run(s, trace).query == LastWrite(s.query, trace, QueryWrite)
    decreases |trace|
  {
    if trace != [] {
      var t := Step(s, trace[0]).state;
      assert t.status == StatusWrite(trace[0]).GetOr(s.status);
      assert t.events == EventsWrite(trace[0]).GetOr(s.events);
      assert t.coords == CoordsWrite(trace[0]).GetOr(s.coords);
      assert t.query == QueryWrite(trace[0]).GetOr(s.query);
      LastWriteWins(t, trace[1..]);
    }
  }

  /** What an input writes depends only on the slots it touches. */
  lemma StepLocal(s: State, t: State, i: Input)
    requires SameOutside(s, t, AllSlots - Touches(i))
    ensures SameOutside(Step(s, i).state, Step(t, i).state, AllSlots - Touches(i))
  {
  }

  /** Two inputs that touch disjoint slots lead to the same state in either
      order (the requests they send may still differ: a search reads the
      query and coordinates at the moment it starts). */
  lemma DisjointInputsCommute(s: State, a: Input, b: Input)
    requires Touches(a) !! Touches(b)
    ensures Run(s, [a, b]) == Run(s, [b, a])
  {
    RunPair(s, a, b);
    RunPair(s, b, a);
    var sa, sb := Step(s, a).state, Step(s, b).state;
    var ab, ba := Step(sa, b).state, Step(sb, a).state;
    StepFrame(s, a);
    StepFrame(s, b);
    StepFrame(sa, b);
    StepFrame(sb, a);
    StepLocal(s, sb, a);
    StepLocal(s, sa, b);
    assert ab.query == ba.query;
    assert ab.suggestions == ba.suggestions;
    assert ab.events == ba.events;
    assert ab.coords == ba.coords;
    assert ab.status == ba.status;
  }

  /** The search lifecycle: after the search starts and one response outcome
      arrives, the status is cleared exactly when a non-empty array arrived;
      the events are emptied by an error envelope (whatever its truthy detail),
      replaced by an array, and left alone by a transport failure. */
  lemma SearchLifecycle(s: State, outcome: Input)
    requires outcome.ErrorEnvelope? || outcome.EventsArray? || outcome.TransportFailure?
    ensures Step(s, SearchStart).state.status == Searching
    ensures Run(s, [SearchStart, outcome]).status == "" <==> outcome.EventsArray? && outcome.data != []
    ensures outcome.ErrorEnvelope? ==>
      Run(s, [SearchStart, outcome]).events == [] && Run(s, [SearchStart, outcome]).status == EventsError
    ensures outcome.EventsArray? ==>
      Run(s, [SearchStart, outcome]).events == outcome.data
      && (outcome.data == [] ==> Run(s, [SearchStart, outcome]).status == NoEvents)
    ensures outcome.TransportFailure? ==>
      Run(s, [SearchStart, outcome]).events == s.events && Run(s, [SearchStart, outcome]).status == FetchFailed
  {
    RunPair(s, SearchStart, outcome);
  }

  /** A change of the query sends a lookup exactly when the query really
      changed and holds a non-white-space character, and the lookup carries
      the query as typed; a changed blank query empties the list instead. */
  lemma QueryChangeEffect(s: State, text: string)
    ensures Step(s, QueryChanged(text)).state.query == text
    ensures Step(s, QueryChanged(text)).sent.Some? <==> text != s.query && !AllWhiteSpace(text)
    ensures Step(s, QueryChanged(text)).sent.Some? ==> Step(s, QueryChanged(text)).sent == Some(SuggestLookup(text))
    ensures text != s.query && AllWhiteSpace(text) ==> Step(s, QueryChanged(text)).state.suggestions == []
  {
    TrimEmptyIff(text);
  }

  /** Clicking a suggestion sets the query to exactly the clicked name and
      empties the list, and is not exempt from the suggestion effect: a new
      name with a non-white-space character is looked up again, and that
      lookup's response fills the list once more. */
  lemma ClickIsNotSuppressed(s: State, city: string, answer: seq<string>)
    requires city != s.query && !AllWhiteSpace(city)
    ensures Step(s, SuggestionClick(city)) == Transition(s.(query := city, suggestions := []), Some(SuggestLookup(city)))
    ensures Run(s, [SuggestionClick(city), SuggestResponse(answer)]).suggestions == answer
  {
    TrimEmptyIff(city);
    RunPair(s, SuggestionClick(city), SuggestResponse(answer));
  }

  /** A `city` parameter is sent exactly when the query holds a character
      that is not white space. */
  lemma CityParamIffNonBlank(coords: Option<Coords>, query: string)
    ensures "city" in ComposeParams(coords, query) <==> !AllWhiteSpace(query)
    ensures !AllWhiteSpace(query) ==> ComposeParams(coords, query)["city"] == Trim(query)
  {
    TrimEmptyIff(query);
  }

  /** Responses are never matched against the lookup that produced them:
      when the lookup for an older query (say "Mun") is answered after the
      one for the newer query ("Munich"), the list shows the older answer
      while the box holds the newer query. */
  lemma StaleSuggestionResponseApplied(s: State, older: string, newer: string, forOlder: seq<string>, forNewer: seq<string>)
    requires older != s.query && newer != older
    requires !AllWhiteSpace(older) && !AllWhiteSpace(newer)
    ensures Step(s, QueryChanged(older)).sent == Some(SuggestLookup(older))
    ensures Step(Step(s, QueryChanged(older)).state, QueryChanged(newer)).sent == Some(SuggestLookup(newer))
    ensures Run(Run(s, [QueryChanged(older), QueryChanged(newer)]), [SuggestResponse(forNewer), SuggestResponse(forOlder)])
            == s.(query := newer, suggestions := forOlder)
  {
    TrimEmptyIff(older);
    TrimEmptyIff(newer);
    var t2 := Step(Step(s, QueryChanged(older)).state, QueryChanged(newer)).state;
    RunPair(s, QueryChanged(older), QueryChanged(newer));
    RunPair(t2, SuggestResponse(forNewer), SuggestResponse(forOlder));
  }
}
