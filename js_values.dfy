/**
 * JavaScript values as they reach the core: JSON documents (from `JSON.parse`, `response.json()`
 * and axios's `response.data`), thrown errors, truthiness and string conversion.
 */
module JsValues {
  import opened Wrappers

  /** A JavaScript number, held as its `Number::toString` rendering; its arithmetic is not modelled. */
  datatype Num = Num(text: string)

  /** `0`, `-0` (both render as "0") and `NaN` are the falsy numbers. */
  predicate NumTruthy(n: Num) {
    n.text != "0" && n.text != "NaN"
  }

  datatype Json =
    | JNull
    | JBool(b: bool)
    | JNumber(n: Num)
    | JString(s: string)
    | JArray(items: seq<Json>)
    | JObject(fields: map<string, Json>)

  /** An error object as the catch blocks see it: its `message` and its optional `code`. */
  datatype JsError = JsError(message: string, code: Option<string>)

  /** JavaScript truthiness of a JSON value. */
  predicate Truthy(v: Json) {
    match v
    case JNull => false
    case JBool(b) => b
    case JNumber(n) => NumTruthy(n)
    case JString(s) => s != ""
    case JArray(_) => true
    case JObject(_) => true
  }

  /** Truthiness of a value that may be `undefined` (`None`). */
  predicate TruthyOpt(v: Option<Json>) {
    v.Some? && Truthy(v.value)
  }

  /** Truthiness of an optional string. */
  predicate TruthyText(s: Option<string>) {
    s.Some? && s.value != ""
  }

  /** Property read `v.name` on a non-null value; `None` is `undefined`. Only objects carry the
      property names the core reads (`search_query`, `status`, `results`, `query`, ...). */
  function Field(v: Json, name: string): (r: Option<Json>)
    requires v != JNull
    ensures r.Some? <==> v.JObject? && name in v.fields
    ensures r.Some? ==> r.value == v.fields[name]
  {
    match v
    case JObject(fields) => if name in fields then Some(fields[name]) else None
    case _ => None
  }

  /** Whether `String(v)` returns rather than throws. A parsed object's own `toString` key holds
      data, not a function, so the conversion passes over it; the inherited `valueOf` gives back
      the object itself, and a TypeError follows. Arrays convert element by element through
      `join`. */
  predicate Convertible(v: Json) {
    match v
    case JArray(items) => forall i :: 0 <= i < |items| ==> Convertible(items[i])
    case JObject(fields) => "toString" !in fields
    case _ => true
  }

  /** `String(v)`, which is also what a template literal `${v}` and `URLSearchParams.append`
      make of a value; `None` is the TypeError they throw. */
  function Display(v: Json): (r: Option<string>)
    ensures r.Some? <==> Convertible(v)
    ensures v.JString? ==> r == Some(v.s)
    ensures v.JNumber? ==> r == Some(v.n.text)
    ensures v.JObject? && Convertible(v) ==> r == Some("[object Object]")
    decreases v, 1
  {
    match v
    case JNull => Some("null")
    case JBool(b) => Some(if b then "true" else "false")
    case JNumber(n) => Some(n.text)
    case JString(s) => Some(s)
    case JArray(items) => JoinItems(items, v)
    case JObject(fields) => if "toString" in fields then None else Some("[object Object]")
  }

  /** `Array.prototype.join(",")`: `null` elements render as the empty string, and the first
      element that cannot be converted makes the whole join throw. */
  function JoinItems(items: seq<Json>, ghost whole: Json): (r: Option<string>)
    requires forall i :: 0 <= i < |items| ==> items[i] < whole
    ensures r.Some? <==> forall i :: 0 <= i < |items| ==> Convertible(items[i])
    decreases whole, 0, |items|
  {
    if items == [] then Some("")
    else
      var head := if items[0] == JNull then Some("") else Display(items[0]);
      if |items| == 1 then head
      else
        var tail := JoinItems(items[1..], whole);
        assert forall i :: 1 <= i < |items| ==> items[i] == items[1..][i - 1];
        if head.None? || tail.None? then None else Some(head.value + "," + tail.value)
  }

  // ---- a body's JSON round trip ------------------------------------------------

  /** Whether `JSON.stringify` writes the number as itself; `Infinity`, `-Infinity` and `NaN`
      are written as `null`. */
  predicate NumFinite(n: Num) {
    n.text != "Infinity" && n.text != "-Infinity" && n.text != "NaN"
  }

  /** Whether every number reached through arrays and objects is finite. */
  predicate AllFinite(v: Json) {
    match v
    case JNumber(n) => NumFinite(n)
    case JArray(items) => forall i :: 0 <= i < |items| ==> AllFinite(items[i])
    case JObject(fields) => forall k :: k in fields ==> AllFinite(fields[k])
    case _ => true
  }

  /** `JSON.parse(JSON.stringify(v))`: a posted body as the server reads it. Every non-finite
      number, at any depth, arrives as `null`; the result has no non-finite number left, converts
      with `String()` exactly when `v` does, and is falsy exactly when `v` is falsy or is itself a
      non-finite number. */
  function Transmit(v: Json): (r: Json)
    ensures AllFinite(r)
    ensures Convertible(r) <==> Convertible(v)
    ensures Truthy(r) <==> Truthy(v) && !(v.JNumber? && !NumFinite(v.n))
  {
    match v
    case JNumber(n) => if NumFinite(n) then v else JNull
    case JArray(items) =>
      var sent := seq(|items|, i requires 0 <= i < |items| => Transmit(items[i]));
      assert forall i :: 0 <= i < |items| ==> sent[i] == Transmit(items[i]);
      JArray(sent)
    case JObject(fields) => JObject(map k | k in fields :: Transmit(fields[k]))
    case _ => v
  }

  /** A value whose numbers are all finite arrives unchanged. */
  lemma {:induction false} TransmitKeepsFinite(v: Json)
    requires AllFinite(v)
    ensures Transmit(v) == v
  {
    match v
    case JArray(items) =>
      forall i | 0 <= i < |items| {
        TransmitKeepsFinite(items[i]);
      }
      assert Transmit(v).items == items;
    case JObject(fields) =>
      forall k | k in fields {
        TransmitKeepsFinite(fields[k]);
      }
      assert Transmit(v).fields == fields;
    case _ =>
  }

  /** A second round trip changes nothing. */
  lemma TransmitIdempotent(v: Json)
    ensures Transmit(Transmit(v)) == Transmit(v)
  {
    TransmitKeepsFinite(Transmit(v));
  }
}
