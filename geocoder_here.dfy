/**
 * The HERE adapter of the `Geocoder` namespace: the address and key sent
 * as they are, and each item made an address candidate at `[lat, lng]`.
 */
module GeocoderHere {
  import opened Php
  import opened Geocoder
  import opened Candidate
  import AbstractGeocoder
  import HereGeocoder

  const BASE_URI := "https://geocode.search.hereapi.com/v1/geocode"

  /** `query`: exactly `q` and `apiKey`, unfiltered. */
  function Query(apiKey: string, address: string): (q: Query)
    ensures Keys(q) == ["q", "apiKey"]
    ensures q[0].1 == Str(address) && q[1].1 == Str(apiKey)
  {
    [("q", Str(address)), ("apiKey", Str(apiKey))]
  }

  /**
   * An empty address is still sent here, where the HERE geocoder's
   * filtered query leaves `q` out altogether.
   */
  lemma EmptyAddressSent(apiKey: string, options: map<string, Value>)
    requires AbstractGeocoder.BaseTyped(options) && options[ADDRESS] == Str("")
    ensures ("q", Str("")) in Query(apiKey, "")
    ensures forall e :: e in HereGeocoder.Query(options) ==> e.0 != "q"
  {
    var q := HereGeocoder.Query(options);
    forall e | e in q
      ensures e.0 != "q"
    {
      var i :| 0 <= i < |q| && q[i] == e;
    }
  }

  /** `$value['position']['lat']` and `['lng']`. */
  function Lat(item: Value): Value { Field(Field(item, "position"), "lat") }
  function Lng(item: Value): Value { Field(Field(item, "position"), "lng") }

  /** `$value['scoring']['queryScore']`. */
  function QueryScore(item: Value): Value { Field(Field(item, "scoring"), "queryScore") }

  /**
   * The arrow function for one item: a candidate with `address.label`
   * (converted to the constructor's `string`), `[lat, lng]` as found, and
   * `queryScore * 100`. An item that is not an array, a label with no
   * string form and a score that cannot be multiplied are TypeErrors.
   */
  function MapItem(item: Value): (r: Result<AddressCandidate>)
    ensures r.Ok? <==>
              item.Arr? && CoerceToString(Field(Field(item, "address"), "label")).Some?
              && !QueryScore(item).Arr? && !QueryScore(item).Factory?
    ensures r.Fail? ==> r.error == TypeFault
    ensures r.Ok? ==> r.value.location == [(IKey(0), Lat(item)), (IKey(1), Lng(item))]
    ensures r.Ok? ==> Some(r.value.address) == CoerceToString(Field(Field(item, "address"), "label"))
    ensures r.Ok? ==> r.value.score == Some(Times100(Lit(QueryScore(item))))
  {
    if !item.Arr? then Fail(TypeFault)
    else
      match CoerceToString(Field(Field(item, "address"), "label"))
      case None => Fail(TypeFault)
      case Some(text) =>
        var score := QueryScore(item);
        if score.Arr? || score.Factory? then Fail(TypeFault)
        else Ok(AddressCandidate(text, [(IKey(0), Lat(item)), (IKey(1), Lng(item))], Some(Times100(Lit(score)))))
  }

  /** `array_map` over the items: keys and order kept, the first TypeError ends it. */
  function MapAll(es: seq<(Key, Value)>): (r: Result<seq<(Key, AddressCandidate)>>)
    ensures r.Ok? <==> forall i :: 0 <= i < |es| ==> MapItem(es[i].1).Ok?
    ensures r.Fail? ==> r.error == TypeFault
    ensures r.Ok? ==> |r.value| == |es| && forall i :: 0 <= i < |es| ==> r.value[i] == (es[i].0, MapItem(es[i].1).value)
  {
    if es == [] then Ok([])
    else
      match MapItem(es[0].1)
      case Fail(e) => Fail(e)
      case Ok(c) =>
        match MapAll(es[1..])
        case Fail(e) => Fail(e)
        case Ok(cs) =>
          assert forall i :: 1 <= i < |es| ==> es[i] == es[1..][i - 1];
          Ok([(es[0].0, c)] + cs)
  }

  /**
   * `mapCandidates`: every item as a candidate, under its own key and in
   * order. There is no count check: no items is no candidates, not an
   * error. Items that are not an array are a TypeError.
   */
  function MapCandidates(data: Value): (r: Result<seq<(Key, AddressCandidate)>>)
    ensures !Field(data, "items").Arr? ==> r == Fail(TypeFault)
    ensures Field(data, "items") == Arr([]) ==> r == Ok([])
    ensures r.Fail? ==> r.error == TypeFault
    ensures r.Ok? ==>
              var es := Field(data, "items").entries;
              Field(data, "items").Arr? && |r.value| == |es| &&
              forall i :: 0 <= i < |es| ==> MapItem(es[i].1).Ok? && r.value[i] == (es[i].0, MapItem(es[i].1).value)
  {
    var items := Field(data, "items");
    if !items.Arr? then Fail(TypeFault) else MapAll(items.entries)
  }

  /**
   * The axis order is the reverse of the HERE geocoder's: for the same item
   * this adapter's candidate is at `[lat, lng]`, the HERE geocoder's row at
   * `[lng, lat]`.
   */
  lemma AxisOrderReversed(item: Value)
    requires MapItem(item).Ok?
    ensures HereGeocoder.MapRow(item).location.x == AsFloat(MapItem(item).value.location[1].1)
    ensures HereGeocoder.MapRow(item).location.y == AsFloat(MapItem(item).value.location[0].1)
  {
  }
}
