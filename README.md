# Event search: client state machine and city suggestions

This project models the two pieces of logic in the event-search web app.

- **The `App` component of the browser client** (`static/script.jsx`). It has five state slots: `query`, `suggestions`, `events`, `coords` and `statusMsg`. Its handlers update them:
  - the suggestion effect, which runs when the query changes;
  - the click on a suggestion;
  - "Use My Location" and the two outcomes of the position request;
  - "Search Events" and the three outcomes of the `/events` request.

  Every asynchronous completion is an ordinary input, and inputs may arrive in any order.
- **The `/suggest` endpoint of the Flask server** (`App.py`). It builds `CITIES` from the `city` column: missing cells are dropped and each name is kept once. It then returns the cities whose lower-cased name starts with the lower-cased `q`.

Modules:

- `Wrappers`: `Option`.
- `JsString`: JavaScript's `String.prototype.trim`, with the ECMAScript white-space and line-terminator set.
- `CitySuggest`: the server side, written as pure functions and lemmas.
- `SearchClient`: the client state as a record. It holds:
  - the request parameter set `ComposeParams`;
  - the transition function `Step`, which gives the next state and the request sent, if any;
  - `Run`, which applies a whole sequence of inputs;
  - a table of which input writes which slot;
  - the lemmas relating these.
- `AppComponent`: the component as a class `App`. Its fields are the state slots. It has one handler method per handler step: `UseMyLocation` takes whether geolocation is available and so covers both of its outcomes, and a failed `/suggest` lookup, which only logs, has no method (it is the `SuggestFailure` input of `Step`, which leaves the state unchanged). Each handler method states its new fields and the request it sends, and is proved to agree with `SearchClient.Step`. So every lemma about `Step` and `Run` holds of any sequence of handler calls. Three helper methods are not handlers and match no single input of `Step`. Each is proved equal to a function instead:
  - `RunSuggestionEffect` to `SearchClient.SuggestionEffect`;
  - `SetQuery` to `SearchClient.SetQuery`;
  - `BuildParams` to `SearchClient.ComposeParams`.

Boundaries:

- The browser's `fetch` and `navigator.geolocation`, and the HTTP request to the server, are abstracted away. What they deliver becomes an input: a `/suggest` answer, an `/events` answer or failure, a position fix or failure.
- A coordinate is kept as the text its number converts to. It reaches the `lat`/`lon` parameters unchanged.
- The `toFixed(3)` renderings shown in "Got location (…)" are passed in with the fix.

Behaviour of the code worth stating outright:

- **A late suggestion response is applied.** `static/script.jsx:13-16` has no guard that matches a response to the query it was sent for, so every response replaces the list. `StaleSuggestionResponseApplied` shows that a late answer for an older query overwrites the list while the box holds the newer query.
- **A click on a suggestion triggers a lookup.** `setQuery(city)` at `static/script.jsx:39` re-runs the effect at lines 11-17 whenever the value changes. `ClickIsNotSuppressed` shows this.
- **A failed lookup changes nothing.** The `catch` at `static/script.jsx:16` only logs, so the list stays as it was (the `SuggestFailure` input of `Step`).

## Model

| member | source | states |
|---|---|---|
| `JsString.TrimStart` | static/script.jsx:52-53 | leading white space removed: the result is a suffix of the input, everything dropped is white space, and the result does not start with white space |
| `JsString.TrimEnd` | static/script.jsx:52-53 | trailing white space removed: the result is a prefix of the input, everything dropped is white space, and the result does not end with white space |
| `JsString.Trim` | static/script.jsx:12 | `trim()` is no longer than its input, is empty when the input is all white space, and otherwise neither starts nor ends with white space; `TrimIsSlice` and `TrimEmptyIff` give the rest |
| `JsString.TrimIsSlice` | static/script.jsx:52-53 | `trim()` returns a contiguous slice of its input; everything outside the slice is white space, and the slice neither starts nor ends with white space |
| `JsString.TrimEmptyIff` | static/script.jsx:12 | `query.trim()` is empty exactly when the query is empty or all white space (both directions) |
| `CitySuggest.LowerChar` | App.py:20-21 | ASCII upper-case letters map to their lower-case letters; every other character is unchanged |
| `CitySuggest.Lower` | App.py:20-21 | `lower()` keeps the length and lower-cases each character in place |
| `CitySuggest.StartsWith` | App.py:21 | `startswith(prefix)` holds exactly when the string is at least as long as the prefix and begins with it |
| `CitySuggest.DropNa` | App.py:10 | `dropna()` keeps every present cell of the column, in column order, and nothing else: the kept names, as cells, form a subsequence of the column whose length is the number of present cells |
| `CitySuggest.UniqueAfter` | App.py:10 | the values not yet seen, each once, in the order of their first occurrences in the input |
| `CitySuggest.Unique` | App.py:10 | `unique()` has no duplicates, has the same values as its input, and lists them in the order of their first occurrences |
| `CitySuggest.Cities` | App.py:10 | `CITIES` is duplicate-free, holds exactly the present (non-null) names of the column, and lists them in the order in which they first appear in the column |
| `CitySuggest.FilterByPrefix` | App.py:21 | the list comprehension is sound (each result is a city whose lower-cased name starts with the query) and complete (each such city is in the result); it is no longer than `CITIES` |
| `CitySuggest.Suggest` | App.py:20-22 | a city is suggested exactly when its lower-cased name starts with the lower-cased `q`; a missing `q` counts as "" |
| `CitySuggest.FilterIsSubsequence` | App.py:21 | the suggestions are a subsequence of `CITIES`: order preserved, length at most that of `CITIES` |
| `CitySuggest.FilterEmptyPrefix` | App.py:21 | an empty lower-cased query keeps every city, in order |
| `CitySuggest.MissingQueryReturnsAll` | App.py:20-21 | a request without `q`, or with an empty `q`, returns all of `CITIES` |
| `CitySuggest.SuggestionsFromCities` | App.py:10-22 | suggestions drawn from `CITIES` are duplicate-free, keep the order of `CITIES`, and name only present cells of the column |
| `SearchClient.ComposeParams` | static/script.jsx:45-54 | `lat` and `lon` are present exactly when there are coordinates, with their values unchanged; `city` is present exactly when the trimmed query is non-empty, with the trimmed query as its value; coordinates and city can both be present; there is no other key |
| `SearchClient.CityParamIffNonBlank` | static/script.jsx:52-54 | `city` is sent exactly when the query has a character that is not white space, and its value is the trimmed query |
| `SearchClient.SuggestionEffect` | static/script.jsx:11-17 | a lookup is sent exactly when the query is not blank, and it carries the raw query with the state unchanged; a blank query empties the list and sends nothing |
| `SearchClient.SetQuery` | static/script.jsx:39 | the query becomes the new value; setting the same value sends nothing and changes nothing, and a real change runs the suggestion effect; events, coordinates and status are untouched |
| `SearchClient.Step` | static/script.jsx:11-70 | one handler outcome; only typing, a click, "Use My Location" with geolocation, and "Search Events" send a request; `StepFrame`, `LastWriteWins` and `SearchLifecycle` state what it does to each slot |
| `SearchClient.Run` | static/script.jsx:11-70 | inputs applied one at a time; a slot that no input of the sequence touches keeps its value |
| `SearchClient.StepFrame` | static/script.jsx:11-70 | each handler outcome changes only the slots it is listed as touching |
| `SearchClient.StepLocal` | static/script.jsx:11-70 | what a handler outcome writes depends only on the slots it touches |
| `SearchClient.LastWriteWins` | static/script.jsx:19-70 | after any sequence of inputs in any order, status, events, coordinates and query each hold the value last written to them, or their earlier value if nothing wrote them |
| `SearchClient.DisjointInputsCommute` | static/script.jsx:11-70 | two inputs that touch disjoint slots give the same state in either order of arrival |
| `SearchClient.SearchLifecycle` | static/script.jsx:43-70 | search start, then one outcome: status is "" exactly after a non-empty array; an error envelope, whatever its detail, empties the events; an array replaces them; a transport failure leaves them and says "Fetch failed." |
| `SearchClient.QueryChangeEffect` | static/script.jsx:11-17 | a query change sends a lookup exactly when the value changed and is not blank; the lookup carries the raw query; a changed blank query empties the list |
| `SearchClient.ClickIsNotSuppressed` | static/script.jsx:38-41 | a click on a new, non-blank name sets the query to exactly that name and empties the list; it also sends a new lookup, whose response fills the list again |
| `SearchClient.StaleSuggestionResponseApplied` | static/script.jsx:13-16 | when the lookup for an older query is answered after the one for the newer query, the list shows the older answer while the query is the newer one |
| `SearchClient.RunAppend` | static/script.jsx:11-70 | running two input sequences one after the other is running their concatenation |
| `AppComponent.App.constructor` | static/script.jsx:4-8 | all slots start empty, with no coordinates |
| `AppComponent.App.RunSuggestionEffect` | static/script.jsx:11-17 | a blank query clears the list and sends nothing; any other query sends a lookup for the raw query and leaves the list |
| `AppComponent.App.SetQuery` | static/script.jsx:39 | sets the query; the effect runs only when the value changed |
| `AppComponent.App.OnQueryChanged` | static/script.jsx:85 | typing sets the query and runs the suggestion effect; nothing else changes |
| `AppComponent.App.OnSuggestionClick` | static/script.jsx:38-41 | the query becomes exactly the clicked string and the list is empty; a lookup is still sent for a new, non-blank name |
| `AppComponent.App.OnSuggestResponse` | static/script.jsx:13-15 | any `/suggest` response replaces the list; nothing else changes |
| `AppComponent.App.UseMyLocation` | static/script.jsx:19-25 | without geolocation: status "Geolocation not supported.", no request, coordinates unchanged; with it: status "Locating..." and a position request |
| `AppComponent.App.OnGeoSuccess` | static/script.jsx:26-30 | the coordinates become exactly the reported pair, and the status is the "Got location (…)" confirmation |
| `AppComponent.App.OnGeoFailure` | static/script.jsx:31-34 | status "Failed to get location."; coordinates unchanged |
| `AppComponent.App.BuildParams` | static/script.jsx:46-54 | the parameters built `set` by `set` from the current coordinates and query equal `ComposeParams`; nothing changes |
| `AppComponent.App.FetchEvents` | static/script.jsx:43-55 | the status becomes "Searching events..." before any response; the events are unchanged; the search is sent with `ComposeParams` of the current coordinates and query |
| `AppComponent.App.OnErrorEnvelope` | static/script.jsx:58-61 | events become empty and the status is "Error fetching events. See console.", whatever the error says |
| `AppComponent.App.OnEventsArray` | static/script.jsx:62-65 | events become exactly the array; the status is "" when the array is non-empty and "No events found." when it is empty |
| `AppComponent.App.OnTransportFailure` | static/script.jsx:67-70 | the status is "Fetch failed."; the events are unchanged |

## Left out

- Rendering and mounting (`static/script.jsx:73-116`): these are UI. So is the tier-gated link of an event without `url`. `Event` carries `url` as an option and nothing renders it.
- `fetch`, `navigator.geolocation` and `console.error` are I/O and browser APIs. Their outcomes are inputs. The log lines are dropped.
- URL encoding by `URLSearchParams` and `encodeURIComponent` (`static/script.jsx:13, 55`) is library encoding. Parameters are a map, so their order (`lat`, `lon`, `city`) is not modelled.
- JavaScript's number-to-string conversion of the coordinates and the `toFixed(3)` formatting are floating-point formatting. The coordinates are kept as text, and the formatted text is an argument of the fix.
- An `/events` answer that is an object whose `error` value is falsy (for example `{"error": ""}`) is not modelled. The code puts such an object into `events` as if it were an array. The model has only two answer shapes: an error envelope and an array.
- A body that is not JSON makes `res.json()` reject. The model counts this as the transport failure, as the code's single `catch` does.
- Strings are sequences of Unicode scalar values. Lone UTF-16 surrogates in JavaScript strings are not represented.
- `CitySuggest.LowerChar`: lower-cases ASCII letters only. Python's `str.lower` uses the full Unicode case table, which is not modelled.
- CSV loading, `print`, Flask routing, CORS and `app.run` (`App.py:1-9, 11, 14-16, 24-25`) are I/O and framework plumbing. The `city` column is given as a sequence of optional strings. JSON serialisation of the answer is not modelled.
- Interleaving inside React's render cycle is not modelled: each input is handled whole before the next. The two state updates of one handler are applied together, as React batches them.
