/** The place records of a search result, as the frontend reads them. */
module Places {
  import opened Wrappers
  import opened JsValues

  /** A coordinate; its numbers are opaque renderings, the geometry is not modelled. */
  datatype LatLng = LatLng(lat: Num, lng: Num)

  /** One entry of the search service's `results`: `place_id`, `name`, `geometry.location`,
      and the optional `formatted_address`, `vicinity` and `rating`. */
  datatype Place = Place(
    placeId: string,
    name: string,
    location: LatLng,
    formattedAddress: Option<string>,
    vicinity: Option<string>,
    rating: Option<Num>)

  /** The template `${lat},${lng}`. */
  function CoordText(c: LatLng): string {
    c.lat.text + "," + c.lng.text
  }

  /** The result set's ids are unique, as the search service promises. */
  predicate UniqueIds(ps: seq<Place>) {
    forall i, j :: 0 <= i < j < |ps| ==> ps[i].placeId != ps[j].placeId
  }

  function Min(a: nat, b: nat): nat {
    if a < b then a else b
  }

  /** `xs.slice(0, n)`: the first `n` elements, or all of them when there are fewer. */
  function Take<T>(xs: seq<T>, n: nat): (r: seq<T>)
    ensures |r| == Min(n, |xs|)
    ensures r <= xs
  {
    xs[..Min(n, |xs|)]
  }

  /** Taking fewer from a prefix taken earlier is taking fewer in the first place. */
  lemma TakeTake<T>(xs: seq<T>, m: nat, n: nat)
    requires n <= m
    ensures Take(Take(xs, m), n) == Take(xs, n)
  {
  }
}
