/**
 * Reverse geocoding with HERE's `revgeocode` endpoint: `at=y,x` (latitude
 * first), the current locale and the API key, answered by the first item's
 * `address.label`.
 */
module ReverseHere {
  import opened Php
  import opened Geocoder
  import opened Candidate
  import opened AbstractReverseGeocoder

  const BASE_URI := "https://revgeocode.search.hereapi.com/v1/revgeocode"

  /**
   * `query`: exactly `at`, `lang` and `apiKey`, unfiltered, so an empty
   * key is still sent. `at` is y then x, and reads back as such when y's
   * text has no comma. The locale is the switcher's current one.
   */
  function Query(apiKey: string, locale: string, x: Coordinate, y: Coordinate): (q: Query)
    ensures Keys(q) == ["at", "lang", "apiKey"]
    ensures q[1].1 == Str(locale) && q[2].1 == Str(apiKey)
    ensures ',' !in CoordinateText(y) ==> q[0].1.Str? && SplitAtComma(q[0].1.s) == (CoordinateText(y), CoordinateText(x))
  {
    var at := CommaPair(y, x);
    assert ',' !in CoordinateText(y) ==> SplitAtComma(at) == (CoordinateText(y), CoordinateText(x)) by {
      if ',' !in CoordinateText(y) {
        SplitCommaPair(CoordinateText(y), CoordinateText(x));
      }
    }
    [("at", Str(at)), ("lang", Str(locale)), ("apiKey", Str(apiKey))]
  }

  /** `$item['address']['label'] ?? null`. */
  function Label(item: Value): Value {
    Field(Field(item, "address"), "label")
  }

  /**
   * `mapCandidates`: the label of item 0, or none when there are no
   * items, no item 0 or no label.
   */
  function MapCandidates(data: Value): (r: Result<Option<string>>)
    ensures (forall e :: e in Items(Field(data, "items")) ==> e.0 != IKey(0)) ==> r == Ok(None)
    ensures Label(At(Field(data, "items"), IKey(0))).Str? ==> r == Ok(Some(Label(At(Field(data, "items"), IKey(0))).s))
    ensures r.Fail? ==> r.error == TypeFault
  {
    ReturnedAddress(Label(At(Field(data, "items"), IKey(0))))
  }

  /** Only the first item counts: whatever follows it, the answer is the first item's label. */
  lemma FirstItemOnly(first: Value, rest: seq<(Key, Value)>)
    ensures MapCandidates(Arr([(SKey("items"), Arr([(IKey(0), first)] + rest))]))
            == MapCandidates(Arr([(SKey("items"), Arr([(IKey(0), first)]))]))
    ensures MapCandidates(Arr([(SKey("items"), Arr([]))])) == Ok(None)
  {
    assert At(Arr([(IKey(0), first)] + rest), IKey(0)) == first;
  }

  /** Reverse geocoding with HERE. */
  function ReverseGeocode(apiKey: string, locale: string, request: Query -> Response, location: seq<(Key, Value)>)
    : (r: Result<Option<AddressCandidate>>)
    ensures Coordinates(location).Fail? ==> r == Fail(Coordinates(location).error)
    ensures r.Ok? && r.value.Some? ==>
              r.value.value.score == None && r.value.value.location == [(IKey(0), X(location)), (IKey(1), Y(location))]
  {
    AbstractReverseGeocoder.ReverseGeocode((x: Coordinate, y: Coordinate) => Query(apiKey, locale, x, y), MapCandidates, request, location)
  }
}
