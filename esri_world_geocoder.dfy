/**
 * The ArcGIS World geocoding service's `findAddressCandidates` endpoint.
 * The query sends the generic options under Esri's parameter names and
 * asks for coordinates in the factory's SRID; the response's
 * `candidates` are mapped one for one. Nothing is caught: every failure
 * reaches the caller as it was raised.
 */
module EsriWorldGeocoder {
  import opened Php
  import opened Geocoder
  import opened AbstractGeocoder
  import opened HttpGetGeocoder

  const BASE_URI := "https://geocode.arcgis.com"
  const DEFAULT_PATH := "arcgis/rest/services/World/GeocodeServer/findAddressCandidates"

  /** The query parameters Esri is ever sent. */
  const PARAMS: seq<string> := ["f", ADDRESS, NEIGHBORHOOD, CITY, REGION, "postal", "countryCode", "outSR"]

  /** The options the configured resolver accepts: the HTTP ones with Esri's path. */
  function OptionSchema(): Schema {
    HttpSchema(AnyValue, DEFAULT_PATH, [])
  }

  /**
   * The query string parameters: JSON output, the address, the optional
   * parts under Esri's names, and the output spatial reference. Falsy
   * values (an empty address, an SRID of 0) are not sent.
   */
  function Query(options: Options): (q: Query)
    requires BaseTyped(options)
    ensures Carries(q, "f", Str("json"))
    ensures Carries(q, ADDRESS, options[ADDRESS])
    ensures Carries(q, NEIGHBORHOOD, OptionAt(options, NEIGHBORHOOD))
    ensures Carries(q, CITY, OptionAt(options, CITY))
    ensures Carries(q, REGION, OptionAt(options, REGION))
    ensures Carries(q, "postal", OptionAt(options, POSTAL_CODE))
    ensures Carries(q, "countryCode", OptionAt(options, COUNTRY))
    ensures Carries(q, "outSR", Int(options[FACTORY].srid))
    ensures DistinctKeys(q) && forall i :: 0 <= i < |q| ==> q[i].0 in PARAMS
  {
    var lit := [ ("f", Str("json")),
                 (ADDRESS, options[ADDRESS]),
                 (NEIGHBORHOOD, OptionAt(options, NEIGHBORHOOD)),
                 (CITY, OptionAt(options, CITY)),
                 (REGION, OptionAt(options, REGION)),
                 ("postal", OptionAt(options, POSTAL_CODE)),
                 ("countryCode", OptionAt(options, COUNTRY)),
                 ("outSR", Int(options[FACTORY].srid)) ];
    assert Keys(lit) == PARAMS;
    ParamsDistinct();
    ArrayFilterCarries(lit);
    var q := ArrayFilter(lit);
    assert Carries(q, lit[0].0, lit[0].1) && Carries(q, lit[1].0, lit[1].1);
    assert Carries(q, lit[2].0, lit[2].1) && Carries(q, lit[3].0, lit[3].1);
    assert Carries(q, lit[4].0, lit[4].1) && Carries(q, lit[5].0, lit[5].1);
    assert Carries(q, lit[6].0, lit[6].1) && Carries(q, lit[7].0, lit[7].1);
    ArrayFilterNames(lit, PARAMS);
    q
  }

  lemma ParamsDistinct()
    ensures forall i, j :: 0 <= i < j < |PARAMS| ==> PARAMS[i] != PARAMS[j]
  {
  }

  /** One candidate of the response as a row. */
  function MapRow(c: Value): Row {
    Row(Field(c, ADDRESS), Lit(Field(c, SCORE)),
        Pair(AsFloat(Field(Field(c, LOCATION), "x")), AsFloat(Field(Field(c, LOCATION), "y"))))
  }

  /** The candidates entry of a decoded body. */
  function CandidatesOf(data: Value): Value {
    Field(data, "candidates")
  }

  /**
   * `mapResponse`: the body's candidates, each under its own key and in
   * order; none is an error. `count` of something other than an array is
   * a TypeError.
   */
  function Candidates(response: Response): (r: Result<Rows>)
    ensures ToArray(response).Fail? ==> r == Fail(ToArray(response).error)
    ensures r == Fail(NoCandidatesFound) <==>
              ToArray(response).Ok? && CandidatesOf(ToArray(response).value) == Arr([])
    ensures ToArray(response).Ok? && !CandidatesOf(ToArray(response).value).Arr? ==> r == Fail(TypeFault)
    ensures r.Fail? ==> !r.error.GeocoderError?
    ensures r.Ok? ==>
              ToArray(response).Ok? &&
              var es := Items(CandidatesOf(ToArray(response).value));
              es != [] && |r.value| == |es| &&
              forall i :: 0 <= i < |es| ==> r.value[i] == (es[i].0, MapRow(es[i].1))
  {
    match ToArray(response)
    case Fail(e) => Fail(e)
    case Ok(data) =>
      var cs := CandidatesOf(data);
      if !cs.Arr? then Fail(TypeFault)
      else if cs.entries == [] then Fail(NoCandidatesFound)
      else Ok(seq(|cs.entries|, i requires 0 <= i < |cs.entries| => (cs.entries[i].0, MapRow(cs.entries[i].1))))
  }

  /** `findCandidates`: the mapped response to the request for the resolved options. */
  function FindCandidates(request: Transport, options: Options): Result<Rows> {
    if Ready(options) then Candidates(Send(request, options, Query(options)))
    else Fail(TypeFault)
  }

  /**
   * Geocoding with Esri: resolution errors come back before any request;
   * otherwise the mapped candidates, each placed by the caller's factory.
   */
  method Geocode(request: Transport, options: Options, filter: Option<Row -> bool>) returns (r: Result<Rows>)
    ensures Resolve(OptionSchema(), options).Fail? ==> r == Fail(Resolve(OptionSchema(), options).error)
    ensures Resolve(OptionSchema(), options).Ok? ==>
              var found := FindCandidates(request, Resolve(OptionSchema(), options).value);
              FACTORY in options && options[FACTORY].Factory? &&
              (found.Fail? ==> r == Fail(found.error)) &&
              (found.Ok? ==> r == Ok(Selected(Located(found.value, options[FACTORY].srid), filter)))
  {
    if Resolve(OptionSchema(), options).Ok? {
      ResolvedReady(AnyValue, DEFAULT_PATH, [], options);
    }
    r := AbstractGeocoder.Geocode(o => Resolve(OptionSchema(), o), o => FindCandidates(request, o), options, filter);
  }
}
