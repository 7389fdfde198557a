# geo-llm chat-turn pipeline in Dafny

geo-llm is a small location assistant. A React frontend has a chat panel and a map panel. A user
types a request such as "find sushi". The frontend asks a local language model (Ollama) to turn
it into a search query. The query is then sent to an Express backend that proxies the Google
Places text search. The results are shown as numbered markers on the map and as up to three
place cards under the chat's answer. Clicking a card or a marker selects that place.

This project models the logic of that pipeline. It proves what the code promises about it:

- **The conversation turn.** `Chat.ChatSection.HandleSend` models `handleSend`. The blank-input
  and busy guard makes the turn a no-op. The trimmed user message is appended. The transient
  "Thinking..." and "Searching for: ..." lines are each removed by a trailing slice. The turn
  leaves exactly one outcome message: the found places, "No places found", the clarification,
  the Ollama hint or the generic error. One exception follows the code: a query that `String()`
  cannot convert makes the "Searching for" template literal throw after "Thinking..." is gone,
  so the catch's `slice(0, -1)` removes the user's own message before the generic error. At most 10 results are published to the map and 3 are
  shown as cards. The flag is cleared at the end. A ghost `history` field records the transcript after
  every update; only `AddMessage` and `DropLast` change the transcript, and each extends the
  history. The turn's contract fixes the exact states it adds (`TurnStates`), and `TurnTrace`
  states that each of them is the starting transcript plus at most one message, and that only
  the last state's extra message is not transient.
- **The model client.** The prompt splices the user's text in verbatim. The regular expression
  `/\{[^}]+\}/` is modelled as a leftmost scan with the first closing brace. `JSON.parse` is an
  oracle parameter, and its failure is thrown rather than turned into `null`. The module also
  covers the body of `searchPlaces`, the fallback of `checkHealth` and the two clients' time
  budgets.
- **The shell and the map.** The shell has one selection slot, shared by the cards and the
  markers. A non-empty update of the places selects the first one; an empty update keeps the
  old selection. The shell renders the loading screen first, then the error screen, then the
  main view. In the map, the scalar `activeMarker` leaves at most one info window open. The
  markers are labelled 1..n. The selection effect pans, zooms to 15 and opens the selected
  place's window. `fitBounds` is issued only with a loaded map and a non-empty list. Without a
  key the map shows a placeholder.
- **The search proxy.** A missing query or address gives a 400 and makes no upstream call. The
  query parameters are appended in the order query, key, location, radius; the last two come
  only with a truthy location. A query, location or address that `append` cannot convert to a
  string (an object with its own `toString` key, or an array holding one) throws inside the
  `try`: the answer is a 500 and no upstream call is made. The posted body reaches the proxy
  through `JSON.stringify` and `express.json()`, which write a non-finite number as `null`: a
  model answer whose `search_query` parses as `1e400` is announced as a search for "Infinity",
  but the proxy receives `null` and answers 400. Only the upstream statuses `OK` and
  `ZERO_RESULTS` pass; anything else gives a 500. The geocode endpoint does no status check.
- **The place card.** The address falls back from `formatted_address` to `vicinity` to
  "Address not available". The rating badge appears only for a truthy rating. The maps link
  encodes the name with `encodeURIComponent`, modelled after section 19.2.6 of ECMA-262 with
  UTF-8 as in RFC 3629. The encoding round-trips through `decodeURIComponent`. The encoded name
  holds no `&`, `=`, `#`, `?`, `+` or space, so the maps link reads back as exactly its three
  parameters. The query of a link is read as a URL parser reads it: after the first `?` and
  before any `#` fragment. A click on a link stops propagation and does not select the place.

Network calls, the language model, `JSON.parse`, geolocation and the map widget are not modelled
inside the project; their outcomes are parameters. `Result.Err` stands for a thrown error or a
rejected promise, and `Option.None` for `null`/`undefined`. JavaScript values are modelled as a
`Json` datatype with JavaScript truthiness and `String()`. A number is kept as the text of its
`Number::toString` rendering.

Files:

- `wrappers.dfy`: `Option` and `Result`.
- `js_text.dfy`: `trim`, `includes` and decimal rendering.
- `js_values.dfy`: JSON values, truthiness and `String()`.
- `uri.dfy`: the URI encoding and decoding, and query splitting.
- `places.dfy`: place records.
- `place_card.dfy`: the place card.
- `api.dfy`: the service layer.
- `server.dfy`: the backend proxy.
- `app.dfy`: the shell.
- `map_section.dfy`: the map panel.
- `chat_section.dfy`: the chat panel.
- `pipeline.dfy`: how the pieces meet.

## Model

| member | source | states |
|---|---|---|
| `JsText.Trim` | frontend/src/components/ChatSection.jsx:49-51 | neither end of `trim`'s result is a whitespace or line-terminator character, and it is no longer than the input |
| `JsText.TrimSplits` | frontend/src/components/ChatSection.jsx:51 | `trim` cuts off only a trimmable prefix and a trimmable suffix; the rest is a contiguous slice of the input |
| `JsText.TrimOf` | frontend/src/components/ChatSection.jsx:51 | any text with untrimmable ends, surrounded by trimmable text, trims back to exactly itself |
| `JsText.TrimIdempotent` | frontend/src/components/ChatSection.jsx:51 | trimming the trimmed message changes nothing |
| `JsText.IsBlank` | frontend/src/components/ChatSection.jsx:49 | no contract; pinned by `JsText.BlankIff` |
| `JsText.BlankIff` | frontend/src/components/ChatSection.jsx:49 | `!s.trim()` holds exactly when every character of `s` is whitespace or a line terminator |
| `JsText.Includes` | frontend/src/components/ChatSection.jsx:101 | `includes` is true exactly when the substring occurs at some index |
| `JsText.DecimalRoundTrip` | frontend/src/components/MapSection.jsx:124 | the decimal rendering of a count or index reads back as that number |
| `JsText.NatToStringInjective` | frontend/src/components/MapSection.jsx:124 | distinct numbers render as distinct strings |
| `JsText.NatToString` | frontend/src/components/MapSection.jsx:124 | the rendering is non-empty, all decimal digits and without a leading zero; pinned by `JsText.DecimalRoundTrip` |
| `JsValues.Field` | frontend/src/components/ChatSection.jsx:65 | a property read gives a value exactly when the value is an object holding that key, and then the key's value |
| `JsValues.Truthy` | backend/server.js:41 | no contract; the definition is JavaScript's truthiness of a JSON value: `null`, `false`, `0`, `NaN` and `""` are falsy, everything else truthy |
| `JsValues.Convertible` | backend/server.js:47-51 | no contract; the definition: an object converts unless it has its own `toString` key (which holds data, not a function), and an array converts when all its elements do |
| `JsValues.Display` | backend/server.js:47-51 | `String(v)` returns exactly when `Convertible(v)`, that is, no object with its own `toString` key is reached through arrays; a string renders as itself, a number as its text and a convertible object as `[object Object]` |
| `JsValues.JoinItems` | backend/server.js:47-51 | `join(",")` of an array returns exactly when every element converts |
| `JsValues.NumFinite` | frontend/src/services/api.js:31-34 | no contract; the definition: `Infinity`, `-Infinity` and `NaN` are the numbers `JSON.stringify` writes as `null` |
| `JsValues.AllFinite` | frontend/src/services/api.js:31-34 | no contract; pinned by `JsValues.Transmit` and `JsValues.TransmitKeepsFinite` |
| `JsValues.Transmit` | frontend/src/services/api.js:31-34 | the body as the proxy reads it after `JSON.stringify` and `express.json()`: no non-finite number is left, `String()` converts it exactly when it converted the body, and it is falsy exactly when the value was falsy or was itself a non-finite number |
| `JsValues.TransmitKeepsFinite` | frontend/src/services/api.js:31-34 | a value whose numbers are all finite arrives unchanged |
| `JsValues.TransmitIdempotent` | frontend/src/services/api.js:31-34 | a second round trip changes nothing |
| `Uri.EncodeURIComponent` | frontend/src/components/PlaceCard.jsx:5 | every character of the encoding is unreserved or starts a `%XY` triple of upper-case hex digits |
| `Uri.EncodedHasNoDelimiters` | frontend/src/components/PlaceCard.jsx:5 | the encoded name holds no `&`, `=`, `#`, `?`, `+` or space |
| `Uri.EncodeRoundTrip` | frontend/src/components/PlaceCard.jsx:5 | `decodeURIComponent(encodeURIComponent(s))` gives back `s` |
| `Uri.EncodeInjective` | frontend/src/components/PlaceCard.jsx:5 | two names with the same encoding are equal |
| `Uri.WithoutFragment` | frontend/src/components/PlaceCard.jsx:5-6 | the URL cut before its first `#`: a prefix of the URL holding no `#`, and the URL itself when it holds none |
| `Uri.QueryOf` | frontend/src/components/PlaceCard.jsx:5-6 | no contract; pinned by `Uri.QueryOfAfter` |
| `Uri.QueryOfAfter` | frontend/src/components/PlaceCard.jsx:5-6 | after a base without `?` or `#`, the query of `base?q` is `q` whenever `q` holds no `#` |
| `Uri.QueryPairsOfThree` | frontend/src/components/PlaceCard.jsx:5-6 | a query of three `name=value` parts with no `&` in them and no `=` in the names reads back as those three pairs |
| `Places.Take` | frontend/src/components/ChatSection.jsx:80 | `slice(0, n)` is a prefix of length min(n, length) |
| `Places.TakeTake` | frontend/src/components/ChatSection.jsx:80-84 | the first 3 of the first 10 are the first 3 |
| `PlaceCard.Address` | frontend/src/components/PlaceCard.jsx:24 | the address line is `formatted_address` if truthy, else `vicinity` if truthy, else "Address not available"; it is never empty |
| `PlaceCard.Rating` | frontend/src/components/PlaceCard.jsx:15-20 | the badge is shown exactly for a present, truthy rating, and it shows that rating; without a rating nothing is shown; a present falsy rating (`0`, `NaN`) is rendered as its bare text |
| `Places.CoordText` | frontend/src/components/PlaceCard.jsx:6 | no contract; pinned by `PlaceCard.DirectionsUrlReadsBack` |
| `PlaceCard.MapsUrl` | frontend/src/components/PlaceCard.jsx:5 | no contract; pinned by `PlaceCard.MapsUrlReadsBack` |
| `PlaceCard.DirectionsUrl` | frontend/src/components/PlaceCard.jsx:6 | no contract; pinned by `PlaceCard.DirectionsUrlReadsBack` and `PlaceCard.DirectionsUrlEnds` |
| `PlaceCard.SearchUrlQuery` | frontend/src/components/PlaceCard.jsx:5 | the query of a maps link is its three `name=value` parts when the encoded name and the id hold no `#` |
| `PlaceCard.DirectionsUrlQuery` | frontend/src/components/PlaceCard.jsx:6 | the query of a directions link is its three `name=value` parts when the coordinate and the id hold no `#` |
| `PlaceCard.MapsUrlReadsBack` | frontend/src/components/PlaceCard.jsx:5 | the maps link's query reads back as exactly `api=1`, the encoded name and the id, and the name decodes back to itself |
| `PlaceCard.DirectionsUrlReadsBack` | frontend/src/components/PlaceCard.jsx:6 | the directions link's query reads back as exactly `api=1`, the coordinate and the id |
| `PlaceCard.DirectionsUrlEnds` | frontend/src/components/PlaceCard.jsx:6 | the directions link ends with `&destination_place_id=` followed by the id |
| `PlaceCard.Bubble` | frontend/src/components/PlaceCard.jsx:9-42 | the listeners run innermost first, up to and including the first one that stops propagation |
| `PlaceCard.SelectsIffBody` | frontend/src/components/PlaceCard.jsx:9-42 | a click runs the card's `onSelect` exactly when it lands on the card body rather than on a link |
| `Api.ModelBudgetExceedsBackendBudget` | frontend/src/services/api.js:7-15 | the model client's 30000 ms budget exceeds the backend client's 10000 ms |
| `Api.PromptRoundTrip` | frontend/src/services/api.js:56-67 | the prompt carries the user's text unchanged: it can be read back exactly |
| `Api.PromptQuotesMessage` | frontend/src/services/api.js:56 | the user's text appears between double quotes right after `User asked: ` |
| `Api.Prompt` | frontend/src/services/api.js:56-67 | no contract; pinned by `Api.PromptRoundTrip` and `Api.PromptQuotesMessage` |
| `Api.GenerateBody` | frontend/src/services/api.js:69-73 | the generate body has exactly the keys model, prompt and stream, with `llama3.2`, a prompt that reads back as the user's text, and `false` |
| `Api.MatchEndUnique` | frontend/src/services/api.js:78 | from a given `{` there is at most one match: its end is the first `}` |
| `Api.MatchFrom` | frontend/src/services/api.js:78 | the scan finds a match at or after its start with no match at an earlier start, or reports that none exists |
| `Api.ExtractJson` | frontend/src/services/api.js:78 | a match is found exactly when one exists, and it is the leftmost one |
| `Api.MatchShape` | frontend/src/services/api.js:78 | a match starts with `{`, ends with `}`, has at least one character between them and holds no other `}` |
| `Api.NoBraceNoMatch` | frontend/src/services/api.js:78-84 | a reply without `{` yields no match |
| `Api.EmptyObjectNoMatch` | frontend/src/services/api.js:78-84 | a reply `{}` yields no match |
| `Api.NestedObjectIsCut` | frontend/src/services/api.js:78 | a nested object is cut after the inner object's closing brace |
| `Api.QueryLlm` | frontend/src/services/api.js:75-88 | `null` exactly when there is no match; the parsed value unchanged when there is one and it parses; otherwise the transport's or the parser's error is thrown |
| `Api.SearchBody` | frontend/src/services/api.js:29-34 | the search request body has exactly the keys `query` and `location`, and `location` is `null` when not given |
| `Api.CheckHealth` | frontend/src/services/api.js:92-99 | the backend's answer, or `{status: 'error'}` instead of any failure |
| `Server.SearchParams.constructor` | backend/server.js:46 | a fresh URL has no query parameters |
| `Server.SearchParams.Append` | backend/server.js:47-52 | `append` adds one pair at the end and keeps the earlier ones |
| `Server.HandleSearch` | backend/server.js:37-67 | a falsy query gives 400 "Query is required" and no upstream call; a query or truthy location that `append` cannot convert gives 500 "Failed to search places" and no upstream call; otherwise exactly one upstream request with the ordered parameters, and the answer decided by its outcome |
| `Server.HandleGeocode` | backend/server.js:70-90 | a falsy address gives 400 "Address is required" and no upstream call; an address that `append` cannot convert gives 500 "Failed to geocode address" and no upstream call; otherwise one upstream request, and the upstream data goes back with no status check, or a 500 on failure |
| `Server.KeyText` | backend/server.js:48 | no contract; a missing key is appended as the text "undefined"; pinned by `Server.SearchParamOrder` |
| `Server.SearchParamsFor` | backend/server.js:46-53 | no contract; pinned by `Server.SearchParamOrder` and `Server.RadiusIffLocation` |
| `Server.GeocodeParamsFor` | backend/server.js:78-80 | the parameters exist exactly when the address converts, and are then the address followed by the key |
| `Server.SearchAnswer` | backend/server.js:55-66 | no contract; pinned by `Server.SearchAnswerIff` |
| `Server.ToStringKeyRefused` | backend/server.js:47-51 | `{"toString": 1}` is truthy, yet as a query, as a location or as an address it leaves no parameters, so no upstream request is made |
| `Server.MapsConfig` | backend/server.js:29-34 | the configuration object's `apiKey` is the configured key, and it is absent when none is configured |
| `Server.SearchParamOrder` | backend/server.js:47-53 | the parameters exist exactly when the query, and a truthy location, convert; they are query and key, then location and radius 5000 exactly when the location is truthy, in that order |
| `Server.RadiusIffLocation` | backend/server.js:50-53 | when the parameters exist, reading them back: a radius of 5000 and a location are present exactly when the location is truthy, and the query is the posted one |
| `Server.StatusPasses` | backend/server.js:58 | no contract; pinned by `Server.SearchAnswerIff` |
| `Server.SearchAnswerIff` | backend/server.js:58-66 | a 200 with the upstream body unchanged exactly for status `OK` or `ZERO_RESULTS`; every other outcome is 500 "Failed to search places" |
| `AppState.App.constructor` | frontend/src/App.jsx:8-12 | the initial state: empty key, no places, no selection, loading, no error |
| `AppState.App.InitApp` | frontend/src/App.jsx:14-24 | loading ends either way; success sets the key, and a failure (or a `null` configuration) sets the backend message |
| `AppState.App.HandlePlacesUpdate` | frontend/src/App.jsx:30-35 | the list is replaced; a non-empty list selects its first place, and an empty one keeps the old selection |
| `AppState.App.HandlePlaceSelect` | frontend/src/App.jsx:37-39 | any place, listed or not, becomes the selection, and nothing else changes |
| `AppState.App.Render` | frontend/src/App.jsx:41-77 | the loading screen exactly while loading; else the error screen exactly for a truthy error; else the main view with the current state |
| `AppState.InitThenRender` | frontend/src/App.jsx:14-60 | after a configuration load, the shell shows the main view on success and the backend error on failure |
| `MapView.MapSection.constructor` | frontend/src/components/MapSection.jsx:18-20 | no map, the default centre, no active marker, no commands |
| `MapView.MapSection.OnLoad` | frontend/src/components/MapSection.jsx:65-67 | the map is loaded, and nothing else changes |
| `MapView.MapSection.OnUnmount` | frontend/src/components/MapSection.jsx:69-71 | the map is gone, and nothing else changes |
| `MapView.MapSection.OnGeolocated` | frontend/src/components/MapSection.jsx:23-37 | a position re-centres the map; a failure changes nothing |
| `MapView.MapSection.FitBoundsEffect` | frontend/src/components/MapSection.jsx:40-51 | `fitBounds` over all places is issued exactly when the map is loaded and there are places |
| `MapView.MapSection.SelectedPlaceEffect` | frontend/src/components/MapSection.jsx:54-63 | with a loaded map and a selection: pan to it, zoom to 15 and make it the active marker; otherwise nothing |
| `MapView.MapSection.HandleMarkerClick` | frontend/src/components/MapSection.jsx:73-76 | the clicked marker becomes active and the shared selection becomes its place |
| `MapView.MapSection.HandleInfoWindowClose` | frontend/src/components/MapSection.jsx:78-80 | no marker is active |
| `MapView.MapSection.Render` | frontend/src/components/MapSection.jsx:82-147 | the placeholder exactly without a truthy key; otherwise the map at the panel's centre and zoom 13, one marker per place at its location labelled with its 1-based rank, and an open info window exactly on the active marker |
| `MapView.Locations` | frontend/src/components/MapSection.jsx:43-48 | the bounds cover each place's location, in order |
| `MapView.MarkerLabels` | frontend/src/components/MapSection.jsx:112-124 | one label per place |
| `MapView.LabelsDistinct` | frontend/src/components/MapSection.jsx:112-124 | marker i is labelled with the numeral of i+1, and no two markers share a label |
| `MapView.Markers` | frontend/src/components/MapSection.jsx:112-143 | one marker per place at its location; its window is open exactly when its id is the active marker, with the name, the address and the rating |
| `MapView.View` | frontend/src/components/MapSection.jsx:82-147 | the placeholder exactly for a falsy key; otherwise zoom 13 at the centre, with markers labelled 1..n and windows open only for the active id |
| `MapView.AtMostOneInfoWindow` | frontend/src/components/MapSection.jsx:130 | with distinct ids, at most one info window is open |
| `MapView.NoneOpenWhenInactive` | frontend/src/components/MapSection.jsx:130-131 | with no active marker, no window is open |
| `MapView.InfoAddressMatchesCard` | frontend/src/components/MapSection.jsx:134 | the info window's address agrees with the card's whenever it is truthy, and the card shows the fallback text otherwise |
| `MapView.InfoAddress` | frontend/src/components/MapSection.jsx:134 | no contract; pinned by `MapView.InfoAddressMatchesCard` |
| `Chat.SearchQueryOf` | frontend/src/components/ChatSection.jsx:65-66 | a query exactly when the result and its `search_query` are both truthy, and then that value |
| `Chat.TurnTraceMeans` | frontend/src/components/ChatSection.jsx:58-99 | in a turn's trace, every state is the base transcript plus at most one message, every extra message but the last state's is transient, and the last state is the final transcript |
| `Chat.ShortTurnTrace` | frontend/src/components/ChatSection.jsx:58-63 | a turn without a search goes base, "Thinking...", base, outcome, and that is a valid trace |
| `Chat.SearchTurnTrace` | frontend/src/components/ChatSection.jsx:58-77 | a turn with a search on a convertible query adds "Searching for: ..." and its removal, and is still a valid trace |
| `Chat.SendBlockedIff` | frontend/src/components/ChatSection.jsx:49 | sending is blocked exactly while a turn runs or while the input is all whitespace |
| `Chat.TurnStatesTrace` | frontend/src/components/ChatSection.jsx:56-111 | unless the query cannot be converted, the states a turn passes through after the user message ("Thinking..." and its removal, "Searching for" and its removal when there is a query, then the outcome) form a valid trace ending in the outcome |
| `Chat.TurnHistoryTrace` | frontend/src/components/ChatSection.jsx:48-112 | once the history has grown by the user message's transcript and the turn's states, its new part is a valid trace ending in the outcome, unless the query cannot be converted |
| `Chat.TurnStates` | frontend/src/components/ChatSection.jsx:56-108 | no contract; pinned by `Chat.TurnStatesTrace`, `Chat.TurnHistoryTrace` and `Chat.ThrownQueryLosesUserMessage` |
| `Chat.AnswerStates` | frontend/src/components/ChatSection.jsx:63-108 | no contract; the part of `Chat.TurnStates` after "Thinking..." is removed |
| `Chat.SearchingText` | frontend/src/components/ChatSection.jsx:67 | the template literal gives a line exactly when the query converts, and the line starts with "Searching for: " and shows the query's `String()` |
| `Chat.WithoutLast` | frontend/src/components/ChatSection.jsx:63 | `slice(0, -1)` of a non-empty list gives everything but its last element, and of an empty list the empty list |
| `Chat.ThrownQueryLosesUserMessage` | frontend/src/components/ChatSection.jsx:63-99 | a query that cannot be converted ends the turn with the transcript from before the user message plus the generic error; no search request is made and the places are not updated |
| `Chat.ConversionErrorIsGeneric` | frontend/src/components/ChatSection.jsx:101-107 | the TypeError of a failed conversion gets the generic error message |
| `Chat.ErrorMessage` | frontend/src/components/ChatSection.jsx:101-107 | no contract; pinned by `Chat.ErrorOutcome` |
| `Chat.TopPlaces` | frontend/src/components/ChatSection.jsx:79-89 | no contract; pinned by `Chat.FoundOutcome` and `Chat.NoResultsOutcome` |
| `Chat.SearchOutcome` | frontend/src/components/ChatSection.jsx:78-90 | no contract; pinned by `Chat.FoundOutcome`, `Chat.NoResultsOutcome` and `Chat.ErrorOutcome` |
| `Chat.Outcome` | frontend/src/components/ChatSection.jsx:65-108 | no contract; pinned by `Chat.FoundOutcome`, `Chat.NoResultsOutcome`, `Chat.ClarifyOutcome`, `Chat.ErrorOutcome`, `Chat.ThrownQueryLosesUserMessage` and `Chat.OutcomeNotTransient` |
| `Chat.PlacesUpdate` | frontend/src/components/ChatSection.jsx:79-90 | no contract; pinned by `Chat.FoundOutcome`, `Chat.NoResultsOutcome`, `Chat.ClarifyOutcome` and `Chat.ErrorOutcome` |
| `Chat.SendBlocked` | frontend/src/components/ChatSection.jsx:49 | no contract; pinned by `Chat.SendBlockedIff` |
| `Chat.SearchRequest` | frontend/src/components/ChatSection.jsx:70-74 | no contract; pinned by `Chat.ClarifyOutcome` and `Pipeline.TurnRequestAtProxy` |
| `Chat.ChatSection.constructor` | frontend/src/components/ChatSection.jsx:9-14 | the transcript holds the ready message, and the history holds that transcript; empty input, not processing, no location |
| `Chat.ChatSection.AddMessage` | frontend/src/components/ChatSection.jsx:44-46 | appends one message at the end, changes nothing before it, and records the new transcript in the history |
| `Chat.ChatSection.DropLast` | frontend/src/components/ChatSection.jsx:63 | `slice(0, -1)` drops the last message only, leaves an empty transcript empty, and records the new transcript in the history |
| `Chat.ChatSection.OnLocationDetected` | frontend/src/components/ChatSection.jsx:21-27 | the position is remembered and the "Location detected" message appended, as one update |
| `Chat.ChatSection.OnLocationFailed` | frontend/src/components/ChatSection.jsx:29-31 | only the default-location message is appended, as one update |
| `Chat.ChatSection.OnInputChange` | frontend/src/components/ChatSection.jsx:153 | the input holds the typed text; the transcript and its history are untouched |
| `Chat.ChatSection.HandleSend` | frontend/src/components/ChatSection.jsx:48-112 | a blocked send changes nothing, the history included; otherwise the trimmed text is appended as one user message, and the history grows by exactly that transcript and the turn's states. Unless the query cannot be converted, those states form a valid trace and the user message and one outcome remain; a query that cannot be converted leaves the old transcript and the generic error. The input is cleared, the flag is false, search is called only with a query, and the shell is updated only by a completed search |
| `Chat.ChatSection.BeginTurn` | frontend/src/components/ChatSection.jsx:49-54 | one user message with the trimmed, non-blank text, as one update; the input is cleared and the flag set |
| `Chat.ChatSection.ModelStep` | frontend/src/components/ChatSection.jsx:56-111 | the rest of the turn appends exactly the outcome message (after dropping the user message when the query cannot be converted), the history grows by exactly the turn's states, and the flag ends false |
| `Chat.ChatSection.AnswerStep` | frontend/src/components/ChatSection.jsx:65-108 | after the model's answer: the error, the clarification, the catch for a query that cannot be converted, or the search step; the history grows by exactly `AnswerStates`, a search request is made only for a convertible query, and the shell is updated only by a completed search |
| `Chat.ChatSection.CatchAfterThrow` | frontend/src/components/ChatSection.jsx:97-108 | the catch's `slice(0, -1)` removes the last message, then the error message is appended, as two updates |
| `Chat.ChatSection.ShowThinking` | frontend/src/components/ChatSection.jsx:57-63 | "Thinking..." is added and then removed: the transcript is unchanged and the history grows by exactly those two states |
| `Chat.ChatSection.SearchStep` | frontend/src/components/ChatSection.jsx:67-90 | posts the query with the current location; the history grows by exactly "Searching for", its removal and the search outcome; publishes only when the search completed |
| `Chat.ChatSection.ClickCard` | frontend/src/components/ChatSection.jsx:137-142 | a click on a card body selects that card's place; a link click leaves the selection |
| `Chat.FoundOutcome` | frontend/src/components/ChatSection.jsx:79-86 | the published list is the first min(10, n) results; the cards are the first min(3, ·) of it, as prefixes; the text reports the published count |
| `Chat.FoundText` | frontend/src/components/ChatSection.jsx:83 | no contract; pinned by `Chat.FoundTextReportsCount` |
| `Chat.IsConnectionError` | frontend/src/components/ChatSection.jsx:101 | no contract; pinned by `Chat.ErrorOutcome` |
| `Chat.HasResults` | frontend/src/components/ChatSection.jsx:79 | no contract; pinned by `Chat.FoundOutcome` and `Chat.NoResultsOutcome` |
| `Chat.LocationText` | frontend/src/components/ChatSection.jsx:70-72 | no contract; pinned by `Pipeline.TurnRequestAtProxy` |
| `Chat.Searched` | frontend/src/components/ChatSection.jsx:65-67 | no contract; pinned by `Chat.FoundOutcome`, `Chat.NoResultsOutcome` and `Chat.ErrorOutcome` |
| `Chat.QueryThrows` | frontend/src/components/ChatSection.jsx:65-67 | no contract; pinned by `Chat.ThrownQueryLosesUserMessage` |
| `Chat.FoundTextReportsCount` | frontend/src/components/ChatSection.jsx:83 | the number in "Found N places!" reads back as the count |
| `Chat.NoResultsOutcome` | frontend/src/components/ChatSection.jsx:87-90 | empty or missing results give "No places found" and publish `[]` |
| `Chat.ClarifyOutcome` | frontend/src/components/ChatSection.jsx:91-95 | no usable query: the clarification, no search request and no update of the places |
| `Chat.ErrorOutcome` | frontend/src/components/ChatSection.jsx:97-108 | a failure (of the model call, of the search, or of the query's conversion) gives a system message: the Ollama hint exactly for a refused connection or a network error, the generic one otherwise; the places are not updated |
| `Chat.ProxyDownShowsOllamaHint` | frontend/src/components/ChatSection.jsx:101 | an unreachable search proxy also yields the hint that names Ollama |
| `Chat.ModelTimeoutIsGeneric` | frontend/src/components/ChatSection.jsx:101-107 | a timeout of the model call gives the generic error message |
| `Chat.OutcomeNotTransient` | frontend/src/components/ChatSection.jsx:58-95 | the outcome message is never one of the transient lines |
| `Pipeline.TurnRequestAtProxy` | frontend/src/components/ChatSection.jsx:70-74 | the proxy reads the round trip of the chat's query; its check rejects the query exactly when that query is a non-finite number, and otherwise the query converts, reaches the upstream as the chat showed it when its numbers are finite, and comes with a location and the 5 km radius exactly when the chat had a position |
| `Pipeline.InfiniteQueryRejected` | frontend/src/components/ChatSection.jsx:65-74 | a `search_query` of `Infinity` is announced as "Searching for: Infinity..." but reaches the proxy as `null`, which fails its query check |
| `Pipeline.ConfiguredKeyShowsMap` | frontend/src/components/MapSection.jsx:82-88 | the map shows its placeholder exactly when the backend has no key, or an empty one |
| `Pipeline.NoJsonMeansClarify` | frontend/src/services/api.js:78-84 | a reply without a match ends the turn with the clarification |
| `Pipeline.ParseFailureIsAnError` | frontend/src/services/api.js:79-81 | a match that `JSON.parse` rejects ends the turn with an error message |
| `Pipeline.TurnSelectsFirst` | frontend/src/App.jsx:30-35 | after a turn with results the first result is selected, its info window is the open one, and its marker is labelled "1" |
| `Pipeline.CardClickMovesMap` | frontend/src/App.jsx:65-74 | a card click moves the map's open window to that card's place; a link click does not |

## Behaviour that follows the code

These points are easy to misread from the component names or comments. The model does what the
code does:

- An empty place list handed to `handlePlacesUpdate` keeps the previous selection. The code has
  no `else` branch.
- `handlePlaceSelect` does not check that the place is in the current list.
- A match that `JSON.parse` rejects is thrown from `queryLLM`. It ends the turn with an error
  message, not with `null` and the clarification.
- The Ollama hint is chosen for any `ERR_NETWORK`, including a failed call to the search proxy.
- A `search_query` holding a non-finite number is announced in the chat, but the posted body
  carries `null` in its place: a bare `Infinity` fails the proxy's query check with a 400, and
  one inside an array is sent upstream as an empty element (`Pipeline.TurnRequestAtProxy`,
  `Pipeline.InfiniteQueryRejected`).
- The truncation to ten results happens in the chat panel, not in the API client or the proxy.
- A query that `String()` cannot convert throws from the "Searching for" template literal
  after "Thinking..." has been removed, so the catch's `slice(0, -1)` removes the user's
  message (`Chat.ThrownQueryLosesUserMessage`). The model's reply cannot hold such an object in
  practice, since the extracted match has no nested `}` (`Api.MatchShape`).
- A timeout of the model call (axios code `ECONNABORTED`) shows the generic error message, not
  the Ollama hint. The hint is kept for the code `ERR_NETWORK` and for a message containing
  "ECONNREFUSED" (`Chat.ModelTimeoutIsGeneric`).

## Left out

- Network I/O is not modelled. This covers axios, `fetch`, Ollama, Google Places and
  Geocoding, `getMapConfig` and `geocodeAddress`. Their outcomes are `Result` parameters.
- `JSON.parse` is an oracle parameter, so its grammar is not modelled.
- Asynchronous interleaving and React scheduling are not modelled. One turn runs
  sequentially. A geolocation callback that appends a message while a turn awaits could make
  the turn's `slice(0, -1)` remove that message instead of the transient line; the model
  cannot express this. Effects run when the caller invokes them, not on dependency changes.
- Floating point is not modelled. Coordinates and ratings are opaque renderings, and the
  `LatLngBounds` geometry is a list of points.
- Browser and map APIs (`navigator.geolocation`, the map widget, `scrollIntoView`) are
  foreign. Their callbacks are methods that take the outcome.
- Express plumbing (helmet, cors, rate limiting, dotenv, `listen`, the `/health` timestamp) is
  not modelled. The server defaults to port 3000 while the client defaults to 3001. This is
  configuration, and nothing in the model depends on it.
- JSX layout, CSS and `Message.jsx` are not modelled. Neither are `handleKeyPress` (Enter
  without Shift calls `handleSend`), `scrollToBottom` or the retry button's page reload.
- The search outcome is abstracted as `Result<Option<seq<Place>>>`, covering a thrown error,
  a missing `results` field and a list. A 200 answer whose body is `null` would make the turn
  throw. The proxy never sends one, so it is not modelled.
- Lone surrogates, on which `encodeURIComponent` throws, cannot occur in a Dafny `string`.
- `MapView.AtMostOneInfoWindow`: requires distinct place ids. The code relies on the search
  service for this.
- `PlaceCard.MapsUrlReadsBack`: requires a place id without `&` or `#`. The id is not encoded,
  so an id holding `&` would add a parameter and one holding `#` would end the query there.
- `PlaceCard.DirectionsUrlReadsBack`: requires a coordinate and an id without `&` or `#`.
  Neither is encoded.
