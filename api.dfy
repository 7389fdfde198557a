/**
 * The frontend's service layer: the model prompt and the extraction of a JSON object from the
 * model's reply (`queryLLM`), the search request body (`searchPlaces`), the health probe
 * (`checkHealth`) and the two clients' time budgets. The HTTP calls themselves are outcomes
 * passed in as parameters.
 */
module Api {
  import opened Wrappers
  import opened JsText
  import opened JsValues

  /** Time budgets of the two axios clients, in milliseconds. */
  const BackendTimeoutMs: nat := 10000
  const OllamaTimeoutMs: nat := 30000

  /** Local inference gets a longer budget than the search proxy. */
  lemma ModelBudgetExceedsBackendBudget()
    ensures OllamaTimeoutMs > BackendTimeoutMs
  {
  }

  // ---- the prompt ------------------------------------------------------------

  const PromptHead := "You are a helpful location assistant. User asked: \""
  const PromptTail := "\"" + PromptInstructions
  const PromptInstructions := ". \n\nExtract the search query for finding places. Respond with ONLY a JSON object in this exact format:\n"
    + "{\"search_query\": \"the place type or name to search\", \"intent\": \"find_place\"}\n\nExamples:\n"
    + "User: \"Find Italian restaurants\" -> {\"search_query\": \"Italian restaurants\", \"intent\": \"find_place\"}\n"
    + "User: \"Where can I get coffee?\" -> {\"search_query\": \"coffee shops\", \"intent\": \"find_place\"}\n"
    + "User: \"Best pizza places\" -> {\"search_query\": \"pizza restaurants\", \"intent\": \"find_place\"}\n"
    + "User: \"Show me gyms nearby\" -> {\"search_query\": \"gyms\", \"intent\": \"find_place\"}\n\n"
    + "Respond with ONLY the JSON object, no other text."

  /** The instruction template with the user's text spliced in verbatim, unescaped. */
  function Prompt(userMessage: string): string {
    PromptHead + userMessage + PromptTail
  }

  /** Reads the user's text back out of a prompt. */
  function MessageOfPrompt(prompt: string): Option<string> {
    if |prompt| >= |PromptHead| + |PromptTail|
       && prompt[..|PromptHead|] == PromptHead
       && prompt[|prompt| - |PromptTail|..] == PromptTail
    then Some(prompt[|PromptHead|..|prompt| - |PromptTail|])
    else None
  }

  /** The prompt carries the user's text unchanged: it can be read back exactly. */
  lemma PromptRoundTrip(m: string)
    ensures MessageOfPrompt(Prompt(m)) == Some(m)
  {
    var p := Prompt(m);
    assert p[..|PromptHead|] == PromptHead;
    assert p[|p| - |PromptTail|..] == PromptTail;
    assert p[|PromptHead|..|p| - |PromptTail|] == m;
  }

  /** The user's text appears between double quotes right after `User asked: `. */
  lemma PromptQuotesMessage(m: string)
    ensures OccursAt(Prompt(m), "User asked: \"" + m + "\"", |PromptHead| - 13)
  {
    var p := Prompt(m);
    var i := |PromptHead| - 13;
    assert PromptHead[i..] == "User asked: \"";
    assert p[i..i + 14 + |m|] == PromptHead[i..] + m + [PromptTail[0]];
    assert PromptTail == "\"" + PromptInstructions;
    assert PromptTail[0] == '"';
    assert "User asked: \"" + m + "\"" == PromptHead[i..] + m + [PromptTail[0]];
  }

  /** The body posted to Ollama's `/api/generate`. */
  function GenerateBody(userMessage: string): (r: Json)
    ensures r.JObject? && r.fields.Keys == {"model", "prompt", "stream"}
    ensures r.fields["model"] == JString("llama3.2") && r.fields["stream"] == JBool(false)
    ensures r.fields["prompt"].JString? && MessageOfPrompt(r.fields["prompt"].s) == Some(userMessage)
  {
    PromptRoundTrip(userMessage);
    JObject(map["model" := JString("llama3.2"), "prompt" := JString(Prompt(userMessage)), "stream" := JBool(false)])
  }

  // ---- the regular expression /\{[^}]+\}/ -----------------------------------

  /** The regular expression matches `s[i..j+1]`: a `{`, at least one character other than `}`,
      then the first `}` after it. */
  predicate MatchAt(s: string, i: nat, j: nat) {
    i + 1 < j < |s| && s[i] == '{' && s[j] == '}' && forall k :: i < k < j ==> s[k] != '}'
  }

  /** At a given start there is at most one match: its end is the first `}` after it. */
  lemma MatchEndUnique(s: string, i: nat, j: nat, j': nat)
    requires MatchAt(s, i, j) && MatchAt(s, i, j')
    ensures j == j'
  {
  }

  /** The first `}` at or after index `k`. */
  function FirstCloseFrom(s: string, k: nat): (r: Option<nat>)
    requires k <= |s|
    ensures r.Some? ==> k <= r.value < |s| && s[r.value] == '}' && forall m :: k <= m < r.value ==> s[m] != '}'
    ensures r.None? ==> forall m :: k <= m < |s| ==> s[m] != '}'
    decreases |s| - k
  {
    if k == |s| then None
    else if s[k] == '}' then Some(k)
    else FirstCloseFrom(s, k + 1)
  }

  /** How the regular expression engine scans: try each start from `i` on, leftmost first. */
  function MatchFrom(s: string, i: nat): (r: Option<(nat, nat)>)
    requires i <= |s|
    ensures r.Some? ==> i <= r.value.0 && MatchAt(s, r.value.0, r.value.1)
    ensures r.Some? ==> forall a: nat, b: nat :: i <= a < r.value.0 ==> !MatchAt(s, a, b)
    ensures r.None? ==> forall a: nat, b: nat :: i <= a ==> !MatchAt(s, a, b)
    decreases |s| - i
  {
    if i == |s| then None
    else
      var rest := MatchFrom(s, i + 1);
      if s[i] != '{' then rest
      else
        var close := FirstCloseFrom(s, i + 1);
        if close.Some? && close.value > i + 1 then Some((i, close.value))
        else
          assert forall b: nat :: !MatchAt(s, i, b) by {
            forall b: nat | MatchAt(s, i, b) ensures false {
            }
          }
          rest
  }

  /** `llmResponse.match(/\{[^}]+\}/)`: the leftmost match, if any. */
  function ExtractJson(reply: string): (r: Option<string>)
    ensures r.Some? <==> exists i: nat, j: nat :: MatchAt(reply, i, j)
    ensures r.Some? ==> exists i: nat, j: nat ::
      (MatchAt(reply, i, j) && r.value == reply[i..j + 1] && forall a: nat, b: nat :: a < i ==> !MatchAt(reply, a, b))
  {
    var m := MatchFrom(reply, 0);
    if m.None? then None else Some(reply[m.value.0..m.value.1 + 1])
  }

  /** A match starts with `{`, ends with `}`, has something in between and no other `}`: a
      nested object is cut at its first closing brace. */
  lemma MatchShape(reply: string)
    requires ExtractJson(reply).Some?
    ensures var m := ExtractJson(reply).value;
      |m| >= 3 && m[0] == '{' && m[|m| - 1] == '}' && forall k :: 0 <= k < |m| - 1 ==> m[k] != '}'
  {
    var i: nat, j: nat :| MatchAt(reply, i, j) && ExtractJson(reply).value == reply[i..j + 1];
  }

  /** A reply without any `{` has no match. */
  lemma NoBraceNoMatch(reply: string)
    requires '{' !in reply
    ensures ExtractJson(reply) == None
  {
    forall i: nat, j: nat ensures !MatchAt(reply, i, j) {
      if i < |reply| {
        assert reply[i] in reply;
      }
    }
  }

  /** `{}` alone has no match: the class `[^}]+` needs at least one character. */
  lemma EmptyObjectNoMatch()
    ensures ExtractJson("{}") == None
  {
    forall i: nat, j: nat ensures !MatchAt("{}", i, j) {
    }
  }

  /** A reply that is a nested object is cut after the inner object's `}`. */
  lemma NestedObjectIsCut()
    ensures ExtractJson("{\"a\":{\"b\":1}}") == Some("{\"a\":{\"b\":1}")
  {
    var s := "{\"a\":{\"b\":1}}";
    assert MatchAt(s, 0, 11);
    assert s[0..12] == "{\"a\":{\"b\":1}";
    var i: nat, j: nat :| MatchAt(s, i, j) && ExtractJson(s).value == s[i..j + 1]
      && forall a: nat, b: nat :: a < i ==> !MatchAt(s, a, b);
    assert i == 0;
    MatchEndUnique(s, 0, j, 11);
  }

  /** `queryLLM`: the reply's leftmost match handed to `JSON.parse` (`parse`, whose `Err` is the
      thrown `SyntaxError`), `null` when there is no match, and any failure re-thrown. */
  function QueryLlm(reply: Result<string, JsError>, parse: string -> Result<Json, JsError>): (r: Result<Option<Json>, JsError>)
    ensures r == Ok(None) <==> reply.Ok? && ExtractJson(reply.value).None?
    ensures r.Ok? && r.value.Some? <==> reply.Ok? && ExtractJson(reply.value).Some? && parse(ExtractJson(reply.value).value).Ok?
    ensures r.Ok? && r.value.Some? ==> parse(ExtractJson(reply.value).value) == Ok(r.value.value)
    ensures r.Err? ==>
      ((reply.Err? && r.error == reply.error)
      || (reply.Ok? && ExtractJson(reply.value).Some? && parse(ExtractJson(reply.value).value) == Err(r.error)))
  {
    match reply
    case Err(e) => Err(e)
    case Ok(text) =>
      match ExtractJson(text)
      case None => Ok(None)
      case Some(m) =>
        match parse(m)
        case Ok(v) => Ok(Some(v))
        case Err(e) => Err(e)
  }

  // ---- the backend client -----------------------------------------------------

  /** The body `searchPlaces(query, location = null)` posts: exactly `query` and `location`. */
  function SearchBody(query: Json, location: Option<string> := None): (r: Json)
    ensures r.JObject? && r.fields.Keys == {"query", "location"}
    ensures r.fields["query"] == query
    ensures r.fields["location"] == if location.Some? then JString(location.value) else JNull
  {
    JObject(map["query" := query, "location" := if location.Some? then JString(location.value) else JNull])
  }

  /** `checkHealth`: the backend's answer, or `{status: 'error'}` instead of any failure. */
  function CheckHealth(response: Result<Json, JsError>): (r: Json)
    ensures response.Ok? ==> r == response.value
    ensures response.Err? ==> r.JObject? && r.fields == map["status" := JString("error")]
  {
    if response.Ok? then response.value else JObject(map["status" := JString("error")])
  }
}
