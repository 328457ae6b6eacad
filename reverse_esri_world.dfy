/**
 * Reverse geocoding with the ArcGIS World service's `reverseGeocode`
 * endpoint: `location=x,y` with JSON output, answered by the response's
 * `address.Match_addr`.
 */
module ReverseEsriWorld {
  import opened Php
  import opened Geocoder
  import opened Candidate
  import opened AbstractReverseGeocoder

  const BASE_URI := "https://geocode.arcgis.com/arcgis/rest/services/World/GeocodeServer/reverseGeocode"

  /**
   * `query`: exactly `location` and `f=json`, unfiltered. The location is
   * x then y, and reads back as such when x's text has no comma.
   */
  function Query(x: Coordinate, y: Coordinate): (q: Query)
    ensures Keys(q) == ["location", "f"]
    ensures q[1].1 == Str("json")
    ensures ',' !in CoordinateText(x) ==> q[0].1.Str? && SplitAtComma(q[0].1.s) == (CoordinateText(x), CoordinateText(y))
  {
    var location := CommaPair(x, y);
    assert ',' !in CoordinateText(x) ==> SplitAtComma(location) == (CoordinateText(x), CoordinateText(y)) by {
      if ',' !in CoordinateText(x) {
        SplitCommaPair(CoordinateText(x), CoordinateText(y));
      }
    }
    [("location", Str(location)), ("f", Str("json"))]
  }

  /** `$candidates['address']['Match_addr'] ?? null`. */
  function MatchAddr(data: Value): Value {
    Field(Field(data, "address"), "Match_addr")
  }

  /**
   * `mapCandidates`: the matched address, or none when the body has no
   * `address` or the address no `Match_addr`.
   */
  function MapCandidates(data: Value): (r: Result<Option<string>>)
    ensures MatchAddr(data).Str? ==> r == Ok(Some(MatchAddr(data).s))
    ensures (forall e :: e in Items(data) ==> e.0 != SKey("address")) ==> r == Ok(None)
    ensures (forall e :: e in Items(Field(data, "address")) ==> e.0 != SKey("Match_addr")) ==> r == Ok(None)
    ensures r.Fail? ==> r.error == TypeFault
  {
    ReturnedAddress(MatchAddr(data))
  }

  /** Reverse geocoding with Esri. */
  function ReverseGeocode(request: Query -> Response, location: seq<(Key, Value)>): (r: Result<Option<AddressCandidate>>)
    ensures Coordinates(location).Fail? ==> r == Fail(Coordinates(location).error)
    ensures r.Ok? && r.value.Some? ==>
              r.value.value.score == None && r.value.value.location == [(IKey(0), X(location)), (IKey(1), Y(location))]
  {
    AbstractReverseGeocoder.ReverseGeocode(Query, MapCandidates, request, location)
  }
}
