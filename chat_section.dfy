/**
 * The chat panel and its conversation turn: a user message goes to the language model, the
 * extracted query goes to the search proxy, and the transcript gains the user's text and exactly
 * one outcome message; the transient "Thinking..." and "Searching for: ..." lines are each
 * removed by a trailing slice before the next message is appended. A query that cannot be
 * converted to a string throws between the two, and the catch's slice removes the user's text.
 */
module Chat {
  import opened Wrappers
  import opened JsValues
  import opened JsText
  import opened Places
  import opened Api
  import opened AppState
  import opened PlaceCard

  datatype Role = System | User | Assistant

  /** A transcript entry `{type, content, places}`; `places` holds the cards shown under it. */
  datatype Message = Message(role: Role, content: string, places: Option<seq<Place>>)

  const ReadyText := "AI Assistant ready! Ask me to find places to visit, eat, or explore."
  const ThinkingText := "Thinking..."
  const SearchingPrefix := "Searching for: "
  const NoPlacesText := "No places found. " + "Try a different search term or location."
  const ClarifyText := "I understand you want to find a place. " + "Could you be more specific? "
    + "For example: \"Find sushi restaurants\" or \"Coffee shops near me\""
  const OllamaHint := "Error: Could not connect to Ollama. Make sure Ollama is running (ollama serve) and llama3.2 is installed (ollama pull llama3.2)"
  const GenericError := "An error occurred. Please try again."
  const LocationDetectedText := "Location detected! Ready to find places near you."
  const DefaultLocationText := "Using default location. Enable location access for better results."
  const FoundPrefix := "Found "
  const FoundSuffix := " places! Click markers on the map for details."

  /** At most this many results are published to the map, and this many shown as cards. */
  const MaxPublished: nat := 10
  const MaxCards: nat := 3

  /** `Searching for: ${searchQuery}...`; the template literal throws when `String` does. */
  function SearchingText(query: Json): (r: Option<string>)
    ensures r.Some? <==> Convertible(query)
    ensures r.Some? ==> SearchingPrefix <= r.value && r.value == SearchingPrefix + Display(query).value + "..."
  {
    var shown := Display(query);
    if shown.None? then None else Some(SearchingPrefix + shown.value + "...")
  }

  function FoundText(count: nat): string {
    FoundPrefix + NatToString(count) + FoundSuffix
  }

  /** `llmResult && llmResult.search_query`: the query when both are truthy. */
  function SearchQueryOf(llmResult: Option<Json>): (r: Option<Json>)
    ensures r.Some? <==> TruthyOpt(llmResult) && TruthyOpt(Field(llmResult.value, "search_query"))
    ensures r.Some? ==> Some(r.value) == Field(llmResult.value, "search_query") && Truthy(r.value)
  {
    if TruthyOpt(llmResult) && TruthyOpt(Field(llmResult.value, "search_query")) then Field(llmResult.value, "search_query")
    else None
  }

  /** The model named a query that the "Searching for" line can show: the search goes ahead. */
  predicate Searched(llm: Result<Option<Json>, JsError>) {
    llm.Ok? && SearchQueryOf(llm.value).Some? && Convertible(SearchQueryOf(llm.value).value)
  }

  /** The model named a query that `String` cannot convert: building the "Searching for" line
      throws inside the `try`, after "Thinking..." was already removed. */
  predicate QueryThrows(llm: Result<Option<Json>, JsError>) {
    llm.Ok? && SearchQueryOf(llm.value).Some? && !Convertible(SearchQueryOf(llm.value).value)
  }

  /** The TypeError of a failed conversion to a primitive: a message and no `code`. */
  const ConversionError := JsError("Cannot convert " + "object to " + "primitive value", None)

  /** `slice(0, -1)`: everything but the last element. */
  function WithoutLast<T>(s: seq<T>): (r: seq<T>)
    ensures s != [] ==> s == r + [s[|s| - 1]]
    ensures s == [] ==> r == []
  {
    if s == [] then [] else s[..|s| - 1]
  }

  /** The test that picks the Ollama hint over the generic error message. */
  predicate IsConnectionError(e: JsError) {
    Includes(e.message, "ECONNREFUSED") || e.code == Some("ERR_NETWORK")
  }

  function ErrorMessage(e: JsError): Message {
    Message(System, if IsConnectionError(e) then OllamaHint else GenericError, None)
  }

  /** Whether a search outcome holds a non-empty `results` list. */
  predicate HasResults(results: Option<seq<Place>>) {
    results.Some? && |results.value| > 0
  }

  /** What a turn hands to `onPlacesUpdate`: the first ten results, or `[]` when there are none. */
  function TopPlaces(results: Option<seq<Place>>): seq<Place> {
    if HasResults(results) then Take(results.value, MaxPublished) else []
  }

  /** The message for a search outcome once a query was found. */
  function SearchOutcome(search: Result<Option<seq<Place>>, JsError>): Message {
    match search
    case Err(e) => ErrorMessage(e)
    case Ok(results) =>
      if HasResults(results) then
        var top := TopPlaces(results);
        Message(Assistant, FoundText(|top|), Some(Take(top, MaxCards)))
      else Message(Assistant, NoPlacesText, None)
  }

  /** The one message a completed turn leaves after the user's, for the model's outcome (as
      `queryLLM` returns or throws it) and the search outcome (`results`, or a thrown error). */
  function Outcome(llm: Result<Option<Json>, JsError>, search: Result<Option<seq<Place>>, JsError>): Message {
    match llm
    case Err(e) => ErrorMessage(e)
    case Ok(result) =>
      if SearchQueryOf(result).None? then Message(Assistant, ClarifyText, None)
      else if !Convertible(SearchQueryOf(result).value) then ErrorMessage(ConversionError)
      else SearchOutcome(search)
  }

  /** Whether the turn reaches `onPlacesUpdate`, and with which list. */
  function PlacesUpdate(llm: Result<Option<Json>, JsError>, search: Result<Option<seq<Place>>, JsError>): Option<seq<Place>> {
    if Searched(llm) && search.Ok? then Some(TopPlaces(search.value)) else None
  }

  /** The `location` argument of `searchPlaces`: `${lat},${lng}` or `null`. */
  function LocationText(current: Option<LatLng>): Option<string> {
    if current.Some? then Some(CoordText(current.value)) else None
  }

  /** A transient line that the turn removes again. */
  predicate IsTransient(m: Message) {
    m.role == Assistant && m.places == None
    && (m.content == ThinkingText || SearchingPrefix <= m.content)
  }

  /** A transcript state during a turn: the transcript the turn started from (with the user
      message) and at most one more message. */
  predicate AtMostOneMore(state: seq<Message>, base: seq<Message>) {
    base <= state && |state| <= |base| + 1
  }

  /** The transcript states of a turn, in order: each is `base` and at most one more message,
      every extra message but the last state's is transient, and the last state is `final`. */
  ghost predicate TurnTrace(trace: seq<seq<Message>>, base: seq<Message>, final: seq<Message>)
    decreases |trace|
  {
    && trace != []
    && AtMostOneMore(trace[0], base)
    && if |trace| == 1 then trace[0] == final
       else (|trace[0]| == |base| + 1 ==> IsTransient(trace[0][|base|])) && TurnTrace(trace[1..], base, final)
  }

  /** `TurnTrace` state by state. */
  lemma {:induction false} TurnTraceMeans(trace: seq<seq<Message>>, base: seq<Message>, final: seq<Message>)
    requires TurnTrace(trace, base, final)
    ensures |trace| > 0 && trace[|trace| - 1] == final
    ensures forall k :: 0 <= k < |trace| ==> AtMostOneMore(trace[k], base)
    ensures forall k :: 0 <= k < |trace| - 1 && |trace[k]| == |base| + 1 ==> IsTransient(trace[k][|base|])
  {
    if |trace| > 1 {
      TurnTraceMeans(trace[1..], base, final);
      assert forall k :: 1 <= k < |trace| ==> trace[k] == trace[1..][k - 1];
    }
  }

  lemma TraceCons(state: seq<Message>, rest: seq<seq<Message>>, base: seq<Message>, final: seq<Message>)
    requires AtMostOneMore(state, base) && (|state| == |base| + 1 ==> IsTransient(state[|base|]))
    requires TurnTrace(rest, base, final)
    ensures TurnTrace([state] + rest, base, final)
  {
    assert ([state] + rest)[1..] == rest;
  }

  /** The send button's `disabled`, which is also the guard of `handleSend`. */
  predicate SendBlocked(input: string, processing: bool) {
    processing || IsBlank(input)
  }

  /** Send is blocked exactly while a turn runs or while the input holds only whitespace and
      line terminators. */
  lemma SendBlockedIff(input: string, processing: bool)
    ensures SendBlocked(input, processing) <==> processing || AllTrimmable(input)
  {
    BlankIff(input);
  }

  /** The body posted to the search proxy in a turn: only when the model gave a query. */
  function SearchRequest(llm: Result<Option<Json>, JsError>, current: Option<LatLng>): Option<Json> {
    if Searched(llm) then Some(SearchBody(SearchQueryOf(llm.value).value, LocationText(current)))
    else None
  }

  /** The shell's state after a turn that did (`Some`) or did not (`None`) call
      `onPlacesUpdate`. */
  predicate AfterUpdate(app: App, oldPlaces: seq<Place>, oldSelected: Option<Place>, update: Option<seq<Place>>)
    reads app
  {
    && app.places == (if update.Some? then update.value else oldPlaces)
    && app.selectedPlace == (if update.Some? && update.value != [] then Some(update.value[0]) else oldSelected)
  }

  /** A turn without a search: user, "Thinking...", its removal, the outcome. */
  lemma ShortTurnTrace(base: seq<Message>, last: Message)
    ensures TurnTrace([base, base + [Message(Assistant, ThinkingText, None)], base, base + [last]], base, base + [last])
  {
    var final := base + [last];
    assert TurnTrace([final], base, final);
    TraceCons(base, [final], base, final);
    TraceCons(base + [Message(Assistant, ThinkingText, None)], [base] + [final], base, final);
    TraceCons(base, [base + [Message(Assistant, ThinkingText, None)]] + ([base] + [final]), base, final);
    assert [base, base + [Message(Assistant, ThinkingText, None)], base, final]
      == [base] + ([base + [Message(Assistant, ThinkingText, None)]] + ([base] + [final]));
  }

  /** A turn with a search: the same, with "Searching for: ..." and its removal in between. */
  lemma SearchTurnTrace(base: seq<Message>, query: Json, last: Message)
    requires Convertible(query)
    ensures TurnTrace([base, base + [Message(Assistant, ThinkingText, None)]]
      + [base, base + [Message(Assistant, SearchingText(query).value, None)], base, base + [last]], base, base + [last])
  {
    var final := base + [last];
    var thinking := base + [Message(Assistant, ThinkingText, None)];
    var searching := base + [Message(Assistant, SearchingText(query).value, None)];
    ShortTurnTrace(base, last);
    assert [base, searching, base, final][1..] == [searching, base, final];
    TraceCons(searching, [base, final], base, final);
    assert [searching] + [base, final] == [searching, base, final];
    TraceCons(base, [searching, base, final], base, final);
    assert [base] + [searching, base, final] == [base, searching, base, final];
    TraceCons(thinking, [base, searching, base, final], base, final);
    TraceCons(base, [thinking] + [base, searching, base, final], base, final);
    assert [base, thinking] + [base, searching, base, final] == [base] + ([thinking] + [base, searching, base, final]);
  }

  /** The transcript states a turn passes through after the user message `base`, one per update:
      "Thinking..." and its removal, then "Searching for: ..." and its removal when the model
      gave a query, then the outcome. When that query cannot be shown, the catch's
      `slice(0, -1)` removes the last message left, the user's own, before the error message. */
  function TurnStates(base: seq<Message>, llm: Result<Option<Json>, JsError>, search: Result<Option<seq<Place>>, JsError>): seq<seq<Message>> {
    [base + [Message(Assistant, ThinkingText, None)], base] + AnswerStates(base, llm, search)
  }

  /** The states after "Thinking..." is gone, once the model has answered or failed. */
  function AnswerStates(base: seq<Message>, llm: Result<Option<Json>, JsError>, search: Result<Option<seq<Place>>, JsError>): seq<seq<Message>> {
    if Searched(llm) then
      [base + [Message(Assistant, SearchingText(SearchQueryOf(llm.value).value).value, None)], base, base + [Outcome(llm, search)]]
    else if QueryThrows(llm) then [WithoutLast(base), WithoutLast(base) + [Outcome(llm, search)]]
    else [base + [Outcome(llm, search)]]
  }

  /** Unless the query throws, those states after the user message form a valid turn trace: the
      transient lines appear one at a time and are gone before the outcome arrives. */
  lemma {:induction false} TurnStatesTrace(base: seq<Message>, llm: Result<Option<Json>, JsError>, search: Result<Option<seq<Place>>, JsError>)
    requires !QueryThrows(llm)
    ensures TurnTrace([base] + TurnStates(base, llm, search), base, base + [Outcome(llm, search)])
  {
    var thinking := base + [Message(Assistant, ThinkingText, None)];
    var final := base + [Outcome(llm, search)];
    assert TurnStates(base, llm, search) == [thinking, base] + AnswerStates(base, llm, search);
    if Searched(llm) {
      var query := SearchQueryOf(llm.value).value;
      var searching := base + [Message(Assistant, SearchingText(query).value, None)];
      assert AnswerStates(base, llm, search) == [searching, base, final];
      SearchTurnTrace(base, query, Outcome(llm, search));
      assert [base] + TurnStates(base, llm, search) == [base, thinking] + [base, searching, base, final];
    } else {
      assert AnswerStates(base, llm, search) == [final];
      ShortTurnTrace(base, Outcome(llm, search));
      assert [base] + TurnStates(base, llm, search) == [base, thinking, base, final];
    }
  }

  /** A history that grew by the user message's transcript and then the turn's states holds a
      valid trace of the turn from that point on, unless the query throws. */
  lemma {:induction false} TurnHistoryTrace(before: seq<seq<Message>>, after: seq<seq<Message>>, base: seq<Message>,
                           llm: Result<Option<Json>, JsError>, search: Result<Option<seq<Place>>, JsError>)
    requires after == before + [base] + TurnStates(base, llm, search)
    ensures !QueryThrows(llm) ==> TurnTrace(after[|before|..], base, base + [Outcome(llm, search)])
  {
    if !QueryThrows(llm) {
      assert after == before + ([base] + TurnStates(base, llm, search));
      assert after[|before|..] == [base] + TurnStates(base, llm, search);
      TurnStatesTrace(base, llm, search);
    }
  }

  /** A query that cannot be shown costs the user's message: the turn ends with the transcript
      from before it and the generic error, and neither the search nor the map is reached. */
  lemma {:induction false} ThrownQueryLosesUserMessage(before: seq<Message>, user: Message, llm: Result<Option<Json>, JsError>,
                                    search: Result<Option<seq<Place>>, JsError>, current: Option<LatLng>)
    requires QueryThrows(llm)
    ensures var states := TurnStates(before + [user], llm, search);
      states[|states| - 1] == before + [Message(System, GenericError, None)]
    ensures SearchRequest(llm, current) == None && PlacesUpdate(llm, search) == None
  {
    ConversionErrorIsGeneric();
    var base := before + [user];
    assert WithoutLast(base) == before;
    assert Outcome(llm, search) == ErrorMessage(ConversionError);
    assert AnswerStates(base, llm, search) == [before, before + [Outcome(llm, search)]];
    var states := TurnStates(base, llm, search);
    assert states == [base + [Message(Assistant, ThinkingText, None)], base] + AnswerStates(base, llm, search);
  }

  /** A failed conversion is not a connection error: it gets the generic message. */
  lemma ConversionErrorIsGeneric()
    ensures ErrorMessage(ConversionError) == Message(System, GenericError, None)
  {
    assert 'E' !in "Cannot convert " && 'E' !in "object to " && 'E' !in "primitive value";
    AbsentFirstCharExcludes(ConversionError.message, "ECONNREFUSED");
  }

  class ChatSection {
    var messages: seq<Message>
    var inputValue: string
    var isProcessing: bool
    var currentLocation: Option<LatLng>
    /** The transcript after each update, oldest first; only `AddMessage` and `DropLast`
        change the transcript, and each records the new one here. */
    ghost var history: seq<seq<Message>>

    constructor ()
      ensures messages == [Message(System, ReadyText, None)] && history == [messages]
      ensures inputValue == "" && !isProcessing && currentLocation == None
    {
      messages := [Message(System, ReadyText, None)];
      history := [messages];
      inputValue := "";
      isProcessing := false;
      currentLocation := None;
    }

    /** `addMessage`: appends at the end and changes nothing before it. */
    method AddMessage(role: Role, content: string, places: Option<seq<Place>> := None)
      modifies this
      ensures messages == old(messages) + [Message(role, content, places)]
      ensures history == old(history) + [messages]
      ensures inputValue == old(inputValue) && isProcessing == old(isProcessing) && currentLocation == old(currentLocation)
    {
      messages := messages + [Message(role, content, places)];
      history := history + [messages];
    }

    /** `setMessages(prev => prev.slice(0, -1))`: drops the last message, if any. */
    method DropLast()
      modifies this
      ensures old(messages) != [] ==> messages == old(messages)[..|old(messages)| - 1]
      ensures old(messages) == [] ==> messages == []
      ensures history == old(history) + [messages]
      ensures inputValue == old(inputValue) && isProcessing == old(isProcessing) && currentLocation == old(currentLocation)
    {
      if |messages| > 0 {
        messages := messages[..|messages| - 1];
      }
      history := history + [messages];
    }

    /** The geolocation callback: remember the position and say so. */
    method OnLocationDetected(location: LatLng)
      modifies this
      ensures currentLocation == Some(location)
      ensures messages == old(messages) + [Message(System, LocationDetectedText, None)]
      ensures history == old(history) + [messages]
      ensures inputValue == old(inputValue) && isProcessing == old(isProcessing)
    {
      currentLocation := Some(location);
      AddMessage(System, LocationDetectedText);
    }

    /** The geolocation failure callback: only a message. */
    method OnLocationFailed()
      modifies this
      ensures messages == old(messages) + [Message(System, DefaultLocationText, None)]
      ensures history == old(history) + [messages]
      ensures inputValue == old(inputValue) && isProcessing == old(isProcessing) && currentLocation == old(currentLocation)
    {
      AddMessage(System, DefaultLocationText);
    }

    method OnInputChange(value: string)
      modifies this
      ensures inputValue == value
      ensures messages == old(messages) && history == old(history)
      ensures isProcessing == old(isProcessing) && currentLocation == old(currentLocation)
    {
      inputValue := value;
    }

    /** `handleSend`, run to completion on the outcome of `queryLLM` (its value, or the error it
        throws) and the outcome of `searchPlaces` (the `results` list, or the error). Returns the
        text passed to `queryLLM` and the body posted to the search proxy, when those calls are
        made. The transcript passes through the user message and then exactly `TurnStates`; it
        ends with the user message and the outcome, except that a query which cannot be shown
        loses the user message to the catch's `slice(0, -1)`. */
    method HandleSend(
      llm: Result<Option<Json>, JsError>,
      search: Result<Option<seq<Place>>, JsError>,
      app: App)
      returns (asked: Option<string>, request: Option<Json>)
      modifies this, app
      ensures currentLocation == old(currentLocation)
      ensures app.apiKey == old(app.apiKey) && app.isLoading == old(app.isLoading) && app.error == old(app.error)
      ensures SendBlocked(old(inputValue), old(isProcessing)) ==>
        && messages == old(messages) && history == old(history)
        && inputValue == old(inputValue) && isProcessing == old(isProcessing)
        && asked == None && request == None
        && app.places == old(app.places) && app.selectedPlace == old(app.selectedPlace)
      ensures !SendBlocked(old(inputValue), old(isProcessing)) ==>
        && asked == Some(Trim(old(inputValue)))
        && history == old(history) + [old(messages) + [Message(User, asked.value, None)]]
             + TurnStates(old(messages) + [Message(User, asked.value, None)], llm, search)
        && (!QueryThrows(llm) ==>
             && messages == old(messages) + [Message(User, asked.value, None)] + [Outcome(llm, search)]
             && TurnTrace(history[|old(history)|..], old(messages) + [Message(User, asked.value, None)], messages))
        && (QueryThrows(llm) ==> messages == old(messages) + [Outcome(llm, search)])
        && inputValue == "" && !isProcessing
        && request == SearchRequest(llm, old(currentLocation))
        && AfterUpdate(app, old(app.places), old(app.selectedPlace), PlacesUpdate(llm, search))
    {
      if SendBlocked(inputValue, isProcessing) {
        return None, None;
      }
      ghost var h0 := history;
      var userMessage := BeginTurn();
      asked := Some(userMessage);
      ghost var base := messages;
      request := ModelStep(llm, search, app);
      TurnHistoryTrace(h0, history, base, llm, search);
      assert WithoutLast(base) == old(messages);
    }

    /** The first steps of a turn: the trimmed text becomes a user message, the input is
        cleared and the turn is marked in progress. */
    method BeginTurn() returns (userMessage: string)
      requires !SendBlocked(inputValue, isProcessing)
      modifies this
      ensures userMessage == Trim(old(inputValue)) && !IsBlank(userMessage)
      ensures messages == old(messages) + [Message(User, userMessage, None)]
      ensures history == old(history) + [messages]
      ensures inputValue == "" && isProcessing && currentLocation == old(currentLocation)
    {
      userMessage := Trim(inputValue);
      TrimIdempotent(inputValue);
      inputValue := "";
      AddMessage(User, userMessage);
      isProcessing := true;
    }

    /** The rest of a turn (its `try`/`finally`): the transient "Thinking..." line, the model's
        answer, and finally the flag is cleared. */
    method ModelStep(llm: Result<Option<Json>, JsError>, search: Result<Option<seq<Place>>, JsError>, app: App)
      returns (request: Option<Json>)
      modifies this, app
      ensures !QueryThrows(llm) ==> messages == old(messages) + [Outcome(llm, search)]
      ensures QueryThrows(llm) ==> messages == WithoutLast(old(messages)) + [Outcome(llm, search)]
      ensures history == old(history) + TurnStates(old(messages), llm, search)
      ensures request == SearchRequest(llm, currentLocation)
      ensures inputValue == old(inputValue) && !isProcessing && currentLocation == old(currentLocation)
      ensures app.apiKey == old(app.apiKey) && app.isLoading == old(app.isLoading) && app.error == old(app.error)
      ensures AfterUpdate(app, old(app.places), old(app.selectedPlace), PlacesUpdate(llm, search))
    {
      ghost var base := messages;
      ghost var h0 := history;
      ShowThinking();
      request := AnswerStep(llm, search, app);
      assert history == h0 + ([base + [Message(Assistant, ThinkingText, None)], base] + AnswerStates(base, llm, search));
      isProcessing := false;
    }

    /** The model's answer: an error message when `queryLLM` threw, the clarification without a
        query, the catch when the query cannot be shown, and otherwise the search step. */
    method AnswerStep(llm: Result<Option<Json>, JsError>, search: Result<Option<seq<Place>>, JsError>, app: App)
      returns (request: Option<Json>)
      modifies this, app
      ensures !QueryThrows(llm) ==> messages == old(messages) + [Outcome(llm, search)]
      ensures QueryThrows(llm) ==> messages == WithoutLast(old(messages)) + [Outcome(llm, search)]
      ensures history == old(history) + AnswerStates(old(messages), llm, search)
      ensures request == SearchRequest(llm, currentLocation)
      ensures inputValue == old(inputValue) && isProcessing == old(isProcessing) && currentLocation == old(currentLocation)
      ensures app.apiKey == old(app.apiKey) && app.isLoading == old(app.isLoading) && app.error == old(app.error)
      ensures AfterUpdate(app, old(app.places), old(app.selectedPlace), PlacesUpdate(llm, search))
    {
      request := None;
      if llm.Err? {
        AddMessage(System, ErrorMessage(llm.error).content);
      } else {
        var query := SearchQueryOf(llm.value);
        if query.None? {
          AddMessage(Assistant, ClarifyText);
        } else if !Convertible(query.value) {
          assert Outcome(llm, search) == ErrorMessage(ConversionError);
          CatchAfterThrow(ConversionError);
        } else {
          var body := SearchStep(query.value, search, app);
          request := Some(body);
        }
      }
    }

    /** "Thinking..." is shown while the model is asked, and removed once it answers. */
    method ShowThinking()
      modifies this
      ensures messages == old(messages)
      ensures history == old(history) + [old(messages) + [Message(Assistant, ThinkingText, None)], old(messages)]
      ensures inputValue == old(inputValue) && isProcessing == old(isProcessing) && currentLocation == old(currentLocation)
    {
      ghost var before := messages;
      AddMessage(Assistant, ThinkingText);
      DropLast();
      assert messages == before;
    }

    /** The `catch` for an error thrown when no transient line is showing: its `slice(0, -1)`
        removes whatever message is last, then the error message is appended. */
    method CatchAfterThrow(e: JsError)
      modifies this
      ensures messages == WithoutLast(old(messages)) + [ErrorMessage(e)]
      ensures history == old(history) + [WithoutLast(old(messages)), messages]
      ensures inputValue == old(inputValue) && isProcessing == old(isProcessing) && currentLocation == old(currentLocation)
    {
      DropLast();
      AddMessage(System, ErrorMessage(e).content);
    }

    /** The search half of a turn, once the model gave a query that can be shown: the transient
        "Searching for" line, the proxy call and the outcome message. */
    method SearchStep(query: Json, search: Result<Option<seq<Place>>, JsError>, app: App)
      returns (request: Json)
      requires Convertible(query)
      modifies this, app
      ensures request == SearchBody(query, LocationText(currentLocation))
      ensures messages == old(messages) + [SearchOutcome(search)]
      ensures history == old(history) + [old(messages) + [Message(Assistant, SearchingText(query).value, None)], old(messages), messages]
      ensures inputValue == old(inputValue) && isProcessing == old(isProcessing) && currentLocation == old(currentLocation)
      ensures app.apiKey == old(app.apiKey) && app.isLoading == old(app.isLoading) && app.error == old(app.error)
      ensures AfterUpdate(app, old(app.places), old(app.selectedPlace), if search.Ok? then Some(TopPlaces(search.value)) else None)
    {
      ghost var before := messages;
      ghost var h0 := history;
      AddMessage(Assistant, SearchingText(query).value);
      request := SearchBody(query, LocationText(currentLocation));
      DropLast();
      assert messages == before;
      if search.Err? {
        AddMessage(System, ErrorMessage(search.error).content);
      } else if HasResults(search.value) {
        var topPlaces := Take(search.value.value, MaxPublished);
        AddMessage(Assistant, FoundText(|topPlaces|), Some(Take(topPlaces, MaxCards)));
        app.HandlePlacesUpdate(topPlaces);
      } else {
        AddMessage(Assistant, NoPlacesText);
        app.HandlePlacesUpdate([]);
      }
    }

    /** A click on card `k` under message `i`: the card body writes the shared selection, a link
        click does not. */
    method ClickCard(i: nat, k: nat, target: ClickTarget, app: App)
      requires i < |messages| && messages[i].places.Some? && k < |messages[i].places.value|
      modifies app
      ensures target == CardBody ==> app.selectedPlace == Some(messages[i].places.value[k])
      ensures target != CardBody ==> app.selectedPlace == old(app.selectedPlace)
      ensures app.places == old(app.places) && app.apiKey == old(app.apiKey)
      ensures app.isLoading == old(app.isLoading) && app.error == old(app.error)
    {
      SelectsIffBody(target);
      if SelectCard in Bubble(ListenersFor(target)) {
        app.HandlePlaceSelect(messages[i].places.value[k]);
      }
    }
  }

  // ---- properties of a turn's outcome ---------------------------------------------

  /** With results: the first min(10, n) are published, the first min(3, ·) of those become the
      message's cards, and the text reports the published count. */
  lemma FoundOutcome(llm: Result<Option<Json>, JsError>, search: Result<Option<seq<Place>>, JsError>)
    requires Searched(llm) && search.Ok? && HasResults(search.value)
    ensures var results := search.value.value;
      var published := TopPlaces(search.value);
      var m := Outcome(llm, search);
      && PlacesUpdate(llm, search) == Some(published)
      && published <= results && |published| == Min(MaxPublished, |results|)
      && m.role == Assistant && m.places.Some?
      && m.places.value <= published && |m.places.value| == Min(MaxCards, |published|)
      && m.content == FoundText(|published|)
  {
  }

  /** The count in "Found N places!" reads back as N. */
  lemma FoundTextReportsCount(n: nat)
    ensures var t := FoundText(n);
      && FoundPrefix <= t
      && |FoundPrefix| < |t| - |FoundSuffix|
      && (forall i :: |FoundPrefix| <= i < |t| - |FoundSuffix| ==> IsDigit(t[i]))
      && ParseDecimal(t[|FoundPrefix|..|t| - |FoundSuffix|]) == n
  {
    var t := FoundText(n);
    assert t[|FoundPrefix|..|t| - |FoundSuffix|] == NatToString(n);
    DecimalRoundTrip(n);
  }

  /** An empty or missing result list: the "No places found" message, and `[]` is published. */
  lemma NoResultsOutcome(llm: Result<Option<Json>, JsError>, results: Option<seq<Place>>)
    requires Searched(llm) && !HasResults(results)
    ensures Outcome(llm, Ok(results)) == Message(Assistant, NoPlacesText, None)
    ensures PlacesUpdate(llm, Ok(results)) == Some([])
  {
  }

  /** No usable query: the clarification, no search request and no update of the places. */
  lemma ClarifyOutcome(result: Option<Json>, search: Result<Option<seq<Place>>, JsError>, current: Option<LatLng>)
    requires !TruthyOpt(result) || !TruthyOpt(Field(result.value, "search_query"))
    ensures Outcome(Ok(result), search) == Message(Assistant, ClarifyText, None)
    ensures SearchRequest(Ok(result), current) == None
    ensures PlacesUpdate(Ok(result), search) == None
  {
  }

  /** A failure of either call ends the turn with a system message: the Ollama hint exactly for
      a refused connection or a network error, the generic message otherwise; the places stay. */
  lemma ErrorOutcome(llm: Result<Option<Json>, JsError>, search: Result<Option<seq<Place>>, JsError>, e: JsError)
    requires llm == Err(e) || (Searched(llm) && search == Err(e)) || (QueryThrows(llm) && e == ConversionError)
    ensures Outcome(llm, search).role == System && Outcome(llm, search).places == None
    ensures Outcome(llm, search).content == OllamaHint <==> IsConnectionError(e)
    ensures Outcome(llm, search).content == GenericError <==> !IsConnectionError(e)
    ensures PlacesUpdate(llm, search) == None
  {
  }

  /** A search proxy that cannot be reached (axios code `ERR_NETWORK`) also yields the hint that
      names Ollama, since one test covers both calls. */
  lemma ProxyDownShowsOllamaHint(result: Option<Json>, message: string)
    requires Searched(Ok(result))
    ensures Outcome(Ok(result), Err(JsError(message, Some("ERR_NETWORK")))).content == OllamaHint
  {
  }

  /** An axios timeout of the model call is not a connection error: the generic message. */
  lemma ModelTimeoutIsGeneric()
    ensures Outcome(Err(JsError("timeout of " + "30000ms exceeded", Some("ECONNABORTED"))), Ok(None)).content == GenericError
  {
    var msg := "timeout of " + "30000ms exceeded";
    var e := JsError(msg, Some("ECONNABORTED"));
    assert !IsConnectionError(e) by {
      assert 'E' !in "timeout of " && 'E' !in "30000ms exceeded";
      AbsentFirstCharExcludes(msg, "ECONNREFUSED");
    }
    ErrorOutcome(Err(e), Ok(None), e);
  }

  lemma AbsentFirstCharExcludes(s: string, sub: string)
    requires sub != [] && sub[0] !in s
    ensures !Includes(s, sub)
  {
    forall i: nat
      ensures !OccursAt(s, sub, i)
    {
      if i + |sub| <= |s| {
        assert s[i..i + |sub|][0] == s[i];
      }
    }
  }

  /** A turn's last message is never one of the transient lines. */
  lemma OutcomeNotTransient(llm: Result<Option<Json>, JsError>, search: Result<Option<seq<Place>>, JsError>)
    ensures !IsTransient(Outcome(llm, search))
  {
    assert SearchingPrefix[0] == 'S';
    if llm.Ok? && SearchQueryOf(llm.value).None? {
      assert ClarifyText[0] == "I understand you want to find a place. "[0] == 'I';
    } else if Searched(llm) && search.Ok? && !HasResults(search.value) {
      assert NoPlacesText[0] == "No places found. "[0] == 'N';
    }
  }
}
