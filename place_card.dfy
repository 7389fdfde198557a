/**
 * The place card shown under a chat message: the address line with its fallbacks, the rating
 * badge, the two outbound links and what a click on the card or on a link selects.
 */
module PlaceCard {
  import opened Wrappers
  import opened JsValues
  import opened Places
  import opened Uri

  const NoAddress := "Address not available"

  /** `formatted_address || vicinity || 'Address not available'`: never empty. */
  function Address(p: Place): (r: string)
    ensures r != ""
    ensures TruthyText(p.formattedAddress) ==> r == p.formattedAddress.value
    ensures !TruthyText(p.formattedAddress) && TruthyText(p.vicinity) ==> r == p.vicinity.value
    ensures !TruthyText(p.formattedAddress) && !TruthyText(p.vicinity) ==> r == NoAddress
  {
    if TruthyText(p.formattedAddress) then p.formattedAddress.value
    else if TruthyText(p.vicinity) then p.vicinity.value
    else NoAddress
  }

  /** What the expression `{place.rating && (<badge/>)}` renders: nothing for a missing rating,
      the badge for a truthy one, and React's text rendering of a falsy number (`0`) otherwise. */
  datatype RatingView = NoRating | Badge(rating: Num) | BareText(text: string)

  function Rating(p: Place): (r: RatingView)
    ensures r.Badge? <==> p.rating.Some? && NumTruthy(p.rating.value)
    ensures r.Badge? ==> r.rating == p.rating.value
    ensures p.rating.None? ==> r == NoRating
    ensures p.rating.Some? && !NumTruthy(p.rating.value) ==> r == BareText(p.rating.value.text)
  {
    match p.rating
    case None => NoRating
    case Some(n) => if NumTruthy(n) then Badge(n) else BareText(n.text)
  }

  const MapsSearchBase := "https://www.google.com/maps/search/"
  const MapsDirBase := "https://www.google.com/maps/dir/"

  /** `mapsUrl`: the name goes through `encodeURIComponent`, the id is spliced in as it is. */
  function MapsUrl(p: Place): string {
    MapsSearchBase + "?api=1&query=" + EncodeURIComponent(p.name) + "&query_place_id=" + p.placeId
  }

  /** `directionsUrl`: the coordinate and the id are spliced in as they are. */
  function DirectionsUrl(p: Place): string {
    MapsDirBase + "?api=1&destination=" + CoordText(p.location) + "&destination_place_id=" + p.placeId
  }

  /** Regrouping a link built as `base + (q + p1 + a + n2 + e) + v2 + (a + n3 + e) + v3` into
      its query `p1 & n2=v2 & n3=v3`. */
  lemma Regroup(base: string, q: string, p1: string, a: string, n2: string, e: string, v2: string, n3: string, v3: string)
    ensures base + (q + p1 + a + n2 + e) + v2 + (a + n3 + e) + v3 ==
      base + q + (p1 + a + (n2 + e + v2) + a + (n3 + e + v3))
  {
    var l1, l2 := q + p1 + a + n2 + e, a + n3 + e;
    calc {
      base + l1 + v2 + l2 + v3;
      base + q + (p1 + a + (n2 + e + v2)) + l2 + v3;
      base + q + (p1 + a + (n2 + e + v2) + a + (n3 + e + v3));
    }
  }

  lemma SearchUrlShape(enc: string, id: string)
    ensures MapsSearchBase + "?api=1&query=" + enc + "&query_place_id=" + id ==
      MapsSearchBase + "?" + (("api" + "=" + "1") + "&" + ("query" + "=" + enc) + "&" + ("query_place_id" + "=" + id))
  {
    assert "?api=1&query=" == "?" + ("api" + "=" + "1") + "&" + "query" + "=";
    assert "&query_place_id=" == "&" + "query_place_id" + "=";
    Regroup(MapsSearchBase, "?", "api" + "=" + "1", "&", "query", "=", enc, "query_place_id", id);
  }

  lemma DirectionsUrlShape(c: string, id: string)
    ensures MapsDirBase + "?api=1&destination=" + c + "&destination_place_id=" + id ==
      MapsDirBase + "?" + (("api" + "=" + "1") + "&" + ("destination" + "=" + c) + "&" + ("destination_place_id" + "=" + id))
  {
    assert "?api=1&destination=" == "?" + ("api" + "=" + "1") + "&" + "destination" + "=";
    assert "&destination_place_id=" == "&" + "destination_place_id" + "=";
    Regroup(MapsDirBase, "?", "api" + "=" + "1", "&", "destination", "=", c, "destination_place_id", id);
  }

  /** The directions link ends with `&destination_place_id=` and the id, whatever the id holds. */
  lemma DirectionsUrlEnds(p: Place)
    ensures var u, tail := DirectionsUrl(p), "&destination_place_id=" + p.placeId;
      |tail| <= |u| && u[|u| - |tail|..] == tail
  {
    var head := MapsDirBase + "?api=1&destination=" + CoordText(p.location);
    assert DirectionsUrl(p) == head + ("&destination_place_id=" + p.placeId);
  }

  /** Three parameters whose values hold no `&` read back as themselves. */
  lemma ThreeParams(n2: string, v2: string, n3: string, v3: string)
    requires n2 == "query" || n2 == "destination"
    requires n3 == "query_place_id" || n3 == "destination_place_id"
    requires '&' !in v2 && '&' !in v3
    ensures QueryPairs(("api" + "=" + "1") + "&" + (n2 + "=" + v2) + "&" + (n3 + "=" + v3)) == [("api", "1"), (n2, v2), (n3, v3)]
  {
    assert '&' !in n2 + "=" + v2 by {
      assert n2 + "=" + v2 == (n2 + "=") + v2;
    }
    assert '&' !in n3 + "=" + v3 by {
      assert n3 + "=" + v3 == (n3 + "=") + v3;
    }
    QueryPairsOfThree("api", "1", n2, v2, n3, v3);
  }

  /** When the values hold no `#`, neither does the query, so no fragment cuts it short. */
  lemma {:induction false} NoFragmentInQuery(n2: string, v2: string, n3: string, v3: string)
    requires n2 == "query" || n2 == "destination"
    requires n3 == "query_place_id" || n3 == "destination_place_id"
    requires '#' !in v2 && '#' !in v3
    ensures '#' !in ("api" + "=" + "1") + "&" + (n2 + "=" + v2) + "&" + (n3 + "=" + v3)
  {
    var p1, p2, p3 := "api" + "=" + "1", n2 + "=" + v2, n3 + "=" + v3;
    assert '#' !in n2 + "=" && '#' !in n3 + "=" && '#' !in p1;
    CharNotInConcat('#', n2 + "=", v2);
    CharNotInConcat('#', n3 + "=", v3);
    CharNotInConcat('#', p1, "&");
    CharNotInConcat('#', p1 + "&", p2);
    CharNotInConcat('#', p1 + "&" + p2, "&");
    CharNotInConcat('#', p1 + "&" + p2 + "&", p3);
  }

  lemma CharNotInConcat(c: char, a: string, b: string)
    requires c !in a && c !in b
    ensures c !in a + b
  {
    assert forall i :: 0 <= i < |a + b| ==> (a + b)[i] == if i < |a| then a[i] else b[i - |a|];
  }

  lemma SearchBaseHasNoQuery()
    ensures '?' !in MapsSearchBase && '#' !in MapsSearchBase
  {
  }

  lemma DirBaseHasNoQuery()
    ensures '?' !in MapsDirBase && '#' !in MapsDirBase
  {
  }

  /** The query of a search link, as three `name=value` parts, when the name's encoding and the
      id hold no `#`. */
  lemma SearchUrlQuery(enc: string, id: string)
    requires '#' !in enc && '#' !in id
    ensures QueryOf(MapsSearchBase + "?api=1&query=" + enc + "&query_place_id=" + id) ==
      ("api" + "=" + "1") + "&" + ("query" + "=" + enc) + "&" + ("query_place_id" + "=" + id)
  {
    var q := ("api" + "=" + "1") + "&" + ("query" + "=" + enc) + "&" + ("query_place_id" + "=" + id);
    SearchUrlShape(enc, id);
    NoFragmentInQuery("query", enc, "query_place_id", id);
    SearchBaseHasNoQuery();
    QueryOfAfter(MapsSearchBase, q);
  }

  /** The query of a directions link, as three `name=value` parts, when the coordinate text and
      the id hold no `#`. */
  lemma DirectionsUrlQuery(c: string, id: string)
    requires '#' !in c && '#' !in id
    ensures QueryOf(MapsDirBase + "?api=1&destination=" + c + "&destination_place_id=" + id) ==
      ("api" + "=" + "1") + "&" + ("destination" + "=" + c) + "&" + ("destination_place_id" + "=" + id)
  {
    var q := ("api" + "=" + "1") + "&" + ("destination" + "=" + c) + "&" + ("destination_place_id" + "=" + id);
    DirectionsUrlShape(c, id);
    NoFragmentInQuery("destination", c, "destination_place_id", id);
    DirBaseHasNoQuery();
    QueryOfAfter(MapsDirBase, q);
  }

  /** The search link reads back as exactly three parameters, `api=1`, the encoded name and the
      id, and the name decodes back to itself: no place name can add or alter a parameter.
      (The id is not encoded, so the same holds only for ids without `&` or `#`.) */
  lemma MapsUrlReadsBack(p: Place)
    requires '&' !in p.placeId && '#' !in p.placeId
    ensures QueryPairs(QueryOf(MapsUrl(p))) ==
      [("api", "1"), ("query", EncodeURIComponent(p.name)), ("query_place_id", p.placeId)]
    ensures DecodeURIComponent(QueryPairs(QueryOf(MapsUrl(p)))[1].1) == Some(p.name)
  {
    var enc := EncodeURIComponent(p.name);
    EncodedHasNoDelimiters(p.name);
    SearchUrlQuery(enc, p.placeId);
    ThreeParams("query", enc, "query_place_id", p.placeId);
    EncodeRoundTrip(p.name);
  }

  /** The directions link reads back as `api=1`, the coordinate and the id. */
  lemma DirectionsUrlReadsBack(p: Place)
    requires '&' !in p.placeId && '#' !in p.placeId
    requires '&' !in CoordText(p.location) && '#' !in CoordText(p.location)
    ensures QueryPairs(QueryOf(DirectionsUrl(p))) ==
      [("api", "1"), ("destination", CoordText(p.location)), ("destination_place_id", p.placeId)]
  {
    var c := CoordText(p.location);
    DirectionsUrlQuery(c, p.placeId);
    ThreeParams("destination", c, "destination_place_id", p.placeId);
  }

  // ---- clicks ----------------------------------------------------------------

  /** Where on the card a click lands. */
  datatype ClickTarget = CardBody | MapsLink | DirectionsLink

  /** The card's handlers: a link's `e.stopPropagation()` and the card's `onSelect`. */
  datatype Handler = StopAtLink | SelectCard

  datatype Listener = Listener(handler: Handler, stops: bool)

  /** The listeners from the click target up to the card, innermost first. */
  function ListenersFor(t: ClickTarget): seq<Listener> {
    if t == CardBody then [Listener(SelectCard, false)]
    else [Listener(StopAtLink, true), Listener(SelectCard, false)]
  }

  /** Bubbling: the listeners run innermost first, up to and including the first one that stops
      propagation. */
  function Bubble(ls: seq<Listener>): (run: seq<Handler>)
    ensures |run| <= |ls|
    ensures forall i :: 0 <= i < |run| ==> run[i] == ls[i].handler
    ensures forall i :: 0 <= i < |run| - 1 ==> !ls[i].stops
    ensures |run| < |ls| ==> run != [] && ls[|run| - 1].stops
  {
    if ls == [] then []
    else if ls[0].stops then [ls[0].handler]
    else [ls[0].handler] + Bubble(ls[1..])
  }

  /** A click selects the place exactly when it lands on the card body rather than on a link. */
  lemma SelectsIffBody(t: ClickTarget)
    ensures SelectCard in Bubble(ListenersFor(t)) <==> t == CardBody
  {
    var ls := ListenersFor(t);
    var run := Bubble(ls);
    if t != CardBody {
      assert |run| >= 1 && run[0] == StopAtLink;
      assert ls[0].stops;
      assert |run| == 1;
    } else {
      assert run[0] == SelectCard;
    }
  }
}
