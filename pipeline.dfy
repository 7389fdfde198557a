/**
 * How the pieces meet: the chat turn's request as the search proxy reads it, the proxy's map
 * configuration as the shell and the map read it, the model client's outcome as the turn reads
 * it, and a whole turn followed by the map's selection effect.
 */
module Pipeline {
  import opened Wrappers
  import opened JsValues
  import opened JsText
  import opened Places
  import opened PlaceCard
  import opened Api
  import opened Server
  import opened AppState
  import opened MapView
  import opened Chat

  /** The body a turn posts reaches the proxy through a JSON round trip. Its query arrives as
      the round trip of the chat's query; the proxy's check rejects it exactly when that query
      is a non-finite number (which arrives as `null`), and otherwise the query converts and the
      proxy adds a location and the 5 km radius exactly when the chat had detected a position.
      A query without non-finite numbers reaches the upstream as the text the chat showed. */
  lemma TurnRequestAtProxy(llm: Result<Option<Json>, JsError>, current: Option<LatLng>, apiKey: Option<string>)
    requires SearchRequest(llm, current).Some?
    ensures var body, query := Transmit(SearchRequest(llm, current).value), SearchQueryOf(llm.value).value;
      && body != JNull
      && Field(body, "query") == Some(Transmit(query))
      && (TruthyOpt(Field(body, "query")) <==> !(query.JNumber? && !NumFinite(query.n)))
      && (TruthyOpt(Field(body, "query")) ==>
         var ps := SearchParamsFor(Field(body, "query").value, apiKey, Field(body, "location"));
         && ps.Some?
         && Get(ps.value, "query") == Display(Transmit(query))
         && (AllFinite(query) ==> Get(ps.value, "query") == Display(query))
         && (Get(ps.value, "radius") == Some("5000") <==> current.Some?)
         && (current.Some? ==> Get(ps.value, "location") == Some(CoordText(current.value))))
  {
    var sent := SearchRequest(llm, current).value;
    var query := SearchQueryOf(llm.value).value;
    var body := Transmit(sent);
    assert body.fields["query"] == Transmit(query);
    assert body.fields["location"] == Transmit(sent.fields["location"]);
    if AllFinite(query) {
      TransmitKeepsFinite(query);
    }
    if TruthyOpt(Field(body, "query")) {
      SearchParamOrder(Field(body, "query").value, apiKey, Field(body, "location"));
      var ps := SearchParamsFor(Field(body, "query").value, apiKey, Field(body, "location")).value;
      RadiusIffLocation(Field(body, "query").value, apiKey, Field(body, "location"));
      if current.Some? {
        assert CoordText(current.value) != "" by {
          assert CoordText(current.value)[|current.value.lat.text|] == ',';
        }
        assert Display(JString(CoordText(current.value))) == Some(CoordText(current.value));
        assert ps[2] == ("location", CoordText(current.value));
      }
    }
  }

  /** A model answer whose `search_query` parses as `1e400` is shown as a search for
      "Infinity", but the proxy receives `null`, fails its query check and answers 400. */
  lemma InfiniteQueryRejected(current: Option<LatLng>)
    ensures var llm := Ok(Some(JObject(map["search_query" := JNumber(Num("Infinity"))])));
      && SearchingText(SearchQueryOf(llm.value).value) == Some("Searching for: Infinity...")
      && SearchRequest(llm, current).Some?
      && Field(Transmit(SearchRequest(llm, current).value), "query") == Some(JNull)
  {
    var llm: Result<Option<Json>, JsError> := Ok(Some(JObject(map["search_query" := JNumber(Num("Infinity"))])));
    assert SearchQueryOf(llm.value) == Some(JNumber(Num("Infinity")));
    assert SearchingPrefix + "Infinity" + "..." == "Searching for: Infinity...";
    TurnRequestAtProxy(llm, current, None);
  }

  /** The map shows its placeholder exactly when the proxy has no key, or an empty one. */
  lemma ConfiguredKeyShowsMap(key: Option<string>, center: LatLng, places: seq<Place>, active: Option<string>)
    ensures View(Field(MapsConfig(key), "apiKey"), center, places, active) == Placeholder
      <==> key.None? || key.value == ""
  {
  }

  /** A reply without a usable brace pair leaves the turn with the clarification. */
  lemma NoJsonMeansClarify(reply: string, parse: string -> Result<Json, JsError>, search: Result<Option<seq<Place>>, JsError>)
    requires ExtractJson(reply).None?
    ensures Outcome(QueryLlm(Ok(reply), parse), search) == Message(Assistant, ClarifyText, None)
  {
  }

  /** A match that `JSON.parse` rejects ends the turn with an error message, not the
      clarification. */
  lemma ParseFailureIsAnError(reply: string, parse: string -> Result<Json, JsError>, search: Result<Option<seq<Place>>, JsError>)
    requires ExtractJson(reply).Some? && parse(ExtractJson(reply).value).Err?
    ensures var e := parse(ExtractJson(reply).value).error;
      Outcome(QueryLlm(Ok(reply), parse), search) == ErrorMessage(e)
  {
  }

  /** The model's answer `{search_query: query}`. */
  function QueryObject(query: Json): (r: Json)
    ensures r != JNull && Field(r, "search_query") == Some(query)
  {
    JObject(map["search_query" := query])
  }

  /** The shell with a configured key, the chat with typed input (and the detected position,
      if any) and a loaded map. */
  method Setup(position: Option<LatLng>) returns (app: App, chat: ChatSection, panel: MapSection)
    ensures fresh(app) && fresh(chat) && fresh(panel)
    ensures app.apiKey == Some(JString("key")) && app.places == [] && app.selectedPlace == None
    ensures chat.currentLocation == position && !chat.isProcessing
    ensures chat.inputValue == "find sushi"
    ensures panel.mapLoaded
  {
    app := new App();
    app.InitApp(Ok(MapsConfig(Some("key"))));
    chat := new ChatSection();
    if position.Some? {
      chat.OnLocationDetected(position.value);
    }
    panel := new MapSection();
    panel.OnLoad();
    chat.OnInputChange("find sushi");
  }

  /** What the turn computes when the model names `query` and the search finds `results`. */
  lemma FoundTurnValues(query: string, results: seq<Place>, location: Option<LatLng>)
    requires query != "" && |results| > 0
    ensures var llm: Result<Option<Json>, JsError> := Ok(Some(QueryObject(JString(query))));
      var search: Result<Option<seq<Place>>, JsError> := Ok(Some(results));
      && PlacesUpdate(llm, search) == Some(Take(results, MaxPublished))
      && Take(results, MaxPublished) != [] && Take(results, MaxPublished)[0] == results[0]
      && Outcome(llm, search).places == Some(Take(Take(results, MaxPublished), MaxCards))
      && SearchRequest(llm, location) == Some(SearchBody(JString(query), LocationText(location)))
  {
    var llm: Result<Option<Json>, JsError> := Ok(Some(QueryObject(JString(query))));
    assert SearchQueryOf(llm.value) == Some(JString(query));
  }

  /** A turn whose model answer names `query` and whose search finds `results`. */
  method FoundChatTurn(chat: ChatSection, app: App, query: string, results: seq<Place>) returns (request: Option<Json>)
    requires query != "" && |results| > 0
    requires !SendBlocked(chat.inputValue, chat.isProcessing)
    modifies chat, app
    ensures request == Some(SearchBody(JString(query), LocationText(old(chat.currentLocation))))
    ensures app.apiKey == old(app.apiKey) && app.places == Take(results, MaxPublished)
    ensures app.selectedPlace == Some(results[0])
    ensures chat.messages != [] && chat.messages[|chat.messages| - 1].places == Some(Take(Take(results, MaxPublished), MaxCards))
  {
    FoundTurnValues(query, results, chat.currentLocation);
    var asked;
    asked, request := chat.HandleSend(Ok(Some(QueryObject(JString(query)))), Ok(Some(results)), app);
  }

  /** A whole turn with results, with a loaded map beside it. */
  method FoundTurn(query: string, results: seq<Place>, position: Option<LatLng>)
    returns (app: App, chat: ChatSection, panel: MapSection, request: Option<Json>)
    requires query != "" && |results| > 0
    ensures fresh(app) && fresh(chat) && fresh(panel)
    ensures request == Some(SearchBody(JString(query), LocationText(position)))
    ensures app.apiKey == Some(JString("key")) && app.places == Take(results, MaxPublished)
    ensures app.selectedPlace == Some(results[0])
    ensures panel.mapLoaded
    ensures chat.messages != [] && chat.messages[|chat.messages| - 1].places == Some(Take(Take(results, MaxPublished), MaxCards))
  {
    app, chat, panel := Setup(position);
    assert !IsTrimmable("find sushi"[0]);
    BlankIff("find sushi");
    request := FoundChatTurn(chat, app, query, results);
  }

  /** After a turn with results the first result is selected, its info window is the open one,
      and the first marker is labelled "1". */
  method TurnSelectsFirst(query: string, results: seq<Place>, position: Option<LatLng>)
    returns (request: Option<Json>, active: Option<string>, screen: MapScreen)
    requires query != "" && |results| > 0
    ensures request == Some(SearchBody(JString(query), LocationText(position)))
    ensures active == Some(results[0].placeId)
    ensures screen.Map? && |screen.markers| == Min(MaxPublished, |results|)
    ensures screen.markers[0].labelText == "1" && screen.markers[0].info.Some?
  {
    var app, chat, panel;
    app, chat, panel, request := FoundTurn(query, results, position);
    panel.FitBoundsEffect(app.places);
    panel.SelectedPlaceEffect(app.selectedPlace);
    active := panel.activeMarker;
    screen := panel.Render(app.apiKey, app.places);
    assert NatToString(1) == "1";
  }

  /** Then a click on card `k` of the outcome message: on the card body it moves the selection,
      and with it the map's open window, to that card; on a link it changes neither. */
  method CardClickMovesMap(query: string, results: seq<Place>, position: Option<LatLng>, k: nat, target: ClickTarget)
    returns (active: Option<string>)
    requires query != "" && |results| > 0 && k < Min(MaxCards, |results|)
    ensures active == Some(if target == CardBody then results[k].placeId else results[0].placeId)
  {
    var app, chat, panel, request := FoundTurn(query, results, position);
    panel.SelectedPlaceEffect(app.selectedPlace);
    chat.ClickCard(|chat.messages| - 1, k, target, app);
    panel.SelectedPlaceEffect(app.selectedPlace);
    active := panel.activeMarker;
  }
}
