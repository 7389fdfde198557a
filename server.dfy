/**
 * The backend proxy's handler decisions: the search and geocode endpoints validate the posted
 * body, build the upstream URL's query by appending parameters in order, and decide the status
 * and body of the answer from the upstream outcome (a parameter: `fetch` stands for the HTTP
 * call and `response.json()`).
 */
module Server {
  import opened Wrappers
  import opened JsValues

  type Params = seq<(string, string)>

  /** A URL's `searchParams`: an ordered list of pairs that `append` extends in place. */
  class SearchParams {
    var entries: Params

    constructor ()
      ensures entries == []
    {
      entries := [];
    }

    method Append(name: string, value: string)
      modifies this
      ensures entries == old(entries) + [(name, value)]
    {
      entries := entries + [(name, value)];
    }
  }

  /** `searchParams.get(name)`: the value of the first pair with that name. */
  function Get(ps: Params, name: string): (r: Option<string>)
    ensures r.None? <==> forall i :: 0 <= i < |ps| ==> ps[i].0 != name
    ensures r.Some? ==> exists i :: 0 <= i < |ps| && ps[i] == (name, r.value) && forall k :: 0 <= k < i ==> ps[k].0 != name
  {
    if ps == [] then None
    else if ps[0].0 == name then Some(ps[0].1)
    else
      var r := Get(ps[1..], name);
      assert forall i :: 1 <= i < |ps| ==> ps[i] == ps[1..][i - 1];
      r
  }

  /** An upstream request: the endpoint and its query parameters. */
  datatype Request = Request(endpoint: string, params: Params)

  datatype Response = Response(status: nat, body: Json)

  /** What one call of a handler did: the answer it sent and the upstream request it made. */
  datatype Exchange = Exchange(response: Response, upstream: Option<Request>)

  function ErrorBody(message: string): Json {
    JObject(map["error" := JString(message)])
  }

  const SearchEndpoint := "https://maps.googleapis.com/maps/api/place/textsearch/json"
  const GeocodeEndpoint := "https://maps.googleapis.com/maps/api/geocode/json"
  const SearchRadius := "5000"

  /** The configured key as `append` writes it: a missing key becomes the text "undefined". */
  function KeyText(apiKey: Option<string>): string {
    if apiKey.Some? then apiKey.value else "undefined"
  }

  /** The parameters of a text search: query and key, then location and a 5 km radius when a
      location is given; `None` when `append` throws because the query or the location cannot
      be converted to a string. */
  function SearchParamsFor(query: Json, apiKey: Option<string>, location: Option<Json>): Option<Params> {
    var q := Display(query);
    var l := if TruthyOpt(location) then Display(location.value) else Some("");
    if q.None? || l.None? then None
    else Some([("query", q.value), ("key", KeyText(apiKey))]
      + (if TruthyOpt(location) then [("location", l.value), ("radius", SearchRadius)] else []))
  }

  /** The parameters of a geocode request, or `None` when the address cannot be converted. */
  function GeocodeParamsFor(address: Json, apiKey: Option<string>): (r: Option<Params>)
    ensures r.Some? <==> Convertible(address)
    ensures r.Some? ==> r.value == [("address", Display(address).value), ("key", KeyText(apiKey))]
  {
    var a := Display(address);
    if a.None? then None else Some([("address", a.value), ("key", KeyText(apiKey))])
  }

  /** A search answer passes through only for upstream status `OK` or `ZERO_RESULTS`. */
  predicate StatusPasses(data: Json)
    requires data != JNull
  {
    Field(data, "status") == Some(JString("OK")) || Field(data, "status") == Some(JString("ZERO_RESULTS"))
  }

  /** The search handler's answer for an upstream outcome; reading `status` of `null` throws. */
  function SearchAnswer(data: Result<Json, JsError>): Response {
    if data.Ok? && data.value != JNull && StatusPasses(data.value) then Response(200, data.value)
    else Response(500, ErrorBody("Failed to search places"))
  }

  /** `POST /api/places/search`. The parsed body is an object or an array (`express.json()`). */
  method HandleSearch(body: Json, apiKey: Option<string>, fetch: Request -> Result<Json, JsError>)
    returns (ex: Exchange)
    requires body != JNull
    ensures !TruthyOpt(Field(body, "query")) ==>
      ex == Exchange(Response(400, ErrorBody("Query is required")), None)
    ensures TruthyOpt(Field(body, "query")) && SearchParamsFor(Field(body, "query").value, apiKey, Field(body, "location")).None? ==>
      ex == Exchange(Response(500, ErrorBody("Failed to search places")), None)
    ensures TruthyOpt(Field(body, "query")) && SearchParamsFor(Field(body, "query").value, apiKey, Field(body, "location")).Some? ==>
      && ex.upstream == Some(Request(SearchEndpoint, SearchParamsFor(Field(body, "query").value, apiKey, Field(body, "location")).value))
      && ex.response == SearchAnswer(fetch(ex.upstream.value))
  {
    var query, location := Field(body, "query"), Field(body, "location");
    if !TruthyOpt(query) {
      return Exchange(Response(400, ErrorBody("Query is required")), None);
    }
    var params := new SearchParams();
    var q := Display(query.value);
    if q.None? {
      return Exchange(Response(500, ErrorBody("Failed to search places")), None);
    }
    params.Append("query", q.value);
    params.Append("key", KeyText(apiKey));
    assert params.entries == [("query", q.value), ("key", KeyText(apiKey))];
    if TruthyOpt(location) {
      var l := Display(location.value);
      if l.None? {
        return Exchange(Response(500, ErrorBody("Failed to search places")), None);
      }
      params.Append("location", l.value);
      params.Append("radius", SearchRadius);
      assert params.entries == [("query", q.value), ("key", KeyText(apiKey))] + [("location", l.value), ("radius", SearchRadius)];
    }
    assert Some(params.entries) == SearchParamsFor(query.value, apiKey, location) by {
      if !TruthyOpt(location) {
        assert params.entries == [("query", q.value), ("key", KeyText(apiKey))] + [];
      }
    }
    var request := Request(SearchEndpoint, params.entries);
    var data := fetch(request);
    if data.Err? {
      return Exchange(Response(500, ErrorBody("Failed to search places")), Some(request));
    }
    if data.value == JNull || !StatusPasses(data.value) {
      return Exchange(Response(500, ErrorBody("Failed to search places")), Some(request));
    }
    ex := Exchange(Response(200, data.value), Some(request));
  }

  /** `POST /api/geocode`: no status check, the upstream data goes back as it is. */
  method HandleGeocode(body: Json, apiKey: Option<string>, fetch: Request -> Result<Json, JsError>)
    returns (ex: Exchange)
    requires body != JNull
    ensures !TruthyOpt(Field(body, "address")) ==>
      ex == Exchange(Response(400, ErrorBody("Address is required")), None)
    ensures TruthyOpt(Field(body, "address")) && GeocodeParamsFor(Field(body, "address").value, apiKey).None? ==>
      ex == Exchange(Response(500, ErrorBody("Failed to geocode address")), None)
    ensures TruthyOpt(Field(body, "address")) && GeocodeParamsFor(Field(body, "address").value, apiKey).Some? ==>
      && ex.upstream == Some(Request(GeocodeEndpoint, GeocodeParamsFor(Field(body, "address").value, apiKey).value))
      && ex.response == (match fetch(ex.upstream.value)
                         case Ok(data) => Response(200, data)
                         case Err(_) => Response(500, ErrorBody("Failed to geocode address")))
  {
    var address := Field(body, "address");
    if !TruthyOpt(address) {
      return Exchange(Response(400, ErrorBody("Address is required")), None);
    }
    var params := new SearchParams();
    var a := Display(address.value);
    if a.None? {
      return Exchange(Response(500, ErrorBody("Failed to geocode address")), None);
    }
    params.Append("address", a.value);
    params.Append("key", KeyText(apiKey));
    assert params.entries == [("address", a.value), ("key", KeyText(apiKey))];
    var request := Request(GeocodeEndpoint, params.entries);
    var data := fetch(request);
    if data.Err? {
      return Exchange(Response(500, ErrorBody("Failed to geocode address")), Some(request));
    }
    ex := Exchange(Response(200, data.value), Some(request));
  }

  /** `GET /api/maps-config`: `{apiKey}`, the key omitted when it is not configured. */
  function MapsConfig(apiKey: Option<string>): (r: Json)
    ensures r.JObject? && Field(r, "apiKey") == (if apiKey.Some? then Some(JString(apiKey.value)) else None)
  {
    if apiKey.Some? then JObject(map["apiKey" := JString(apiKey.value)]) else JObject(map[])
  }

  // ---- properties ---------------------------------------------------------------

  /** The search parameters exist exactly when the query, and the location if it is truthy,
      can be converted; they come in the fixed order query, key[, location, radius]. */
  lemma SearchParamOrder(query: Json, apiKey: Option<string>, location: Option<Json>)
    ensures var ps := SearchParamsFor(query, apiKey, location);
      && (ps.Some? <==> Convertible(query) && (TruthyOpt(location) ==> Convertible(location.value)))
      && (ps.Some? ==>
        && |ps.value| == (if TruthyOpt(location) then 4 else 2)
        && ps.value[0] == ("query", Display(query).value) && ps.value[1] == ("key", KeyText(apiKey))
        && (TruthyOpt(location) ==> ps.value[2] == ("location", Display(location.value).value) && ps.value[3] == ("radius", "5000")))
  {
  }

  /** A location and the 5 km radius are sent exactly when the body's location is truthy. */
  lemma RadiusIffLocation(query: Json, apiKey: Option<string>, location: Option<Json>)
    requires SearchParamsFor(query, apiKey, location).Some?
    ensures var ps := SearchParamsFor(query, apiKey, location).value;
      && (Get(ps, "radius") == Some("5000") <==> TruthyOpt(location))
      && (Get(ps, "location").Some? <==> TruthyOpt(location))
      && Get(ps, "query") == Display(query)
  {
    var ps := SearchParamsFor(query, apiKey, location).value;
    assert ps[0].0 == "query" && ps[1].0 == "key";
    if TruthyOpt(location) {
      assert ps[2].0 == "location" && ps[3] == ("radius", "5000");
    } else {
      assert |ps| == 2;
    }
  }

  /** A body such as `{"query": {"toString": 1}}` passes the query check, yet `append` throws on
      it, so neither handler calls the upstream service. */
  lemma ToStringKeyRefused(apiKey: Option<string>, location: Option<Json>)
    ensures var value := JObject(map["toString" := JNumber(Num("1"))]);
      && Truthy(value)
      && SearchParamsFor(value, apiKey, location) == None
      && SearchParamsFor(JString("sushi"), apiKey, Some(value)) == None
      && GeocodeParamsFor(value, apiKey) == None
  {
  }

  /** Status classification: 200 with the upstream body unchanged exactly for `OK` and
      `ZERO_RESULTS`; every other outcome is a 500 with the fixed error body. */
  lemma SearchAnswerIff(data: Result<Json, JsError>)
    ensures SearchAnswer(data).status == 200 <==> data.Ok? && data.value != JNull && StatusPasses(data.value)
    ensures SearchAnswer(data).status == 200 ==> SearchAnswer(data).body == data.value
    ensures SearchAnswer(data).status != 200 ==> SearchAnswer(data) == Response(500, ErrorBody("Failed to search places"))
  {
  }
}
