/**
 * Google's Geocoding API. The address parts go into one free-text
 * `address` parameter and the country and postal code into a
 * `components` filter; the response's `status` decides between no
 * candidates, a failure and a list of results, and each result's
 * `location_type` names the class constant that is its score. Every
 * exception raised while mapping is wrapped in a geocoder exception.
 */
module GoogleGeocoder {
  import opened Php
  import opened Geocoder
  import opened AbstractGeocoder
  import opened HttpGetGeocoder

  const BASE_URI := "https://maps.googleapis.com"
  const DEFAULT_PATH := "maps/api/geocode/json"

  // Scores of the location types.
  const ROOFTOP := 100
  const RANGE_INTERPOLATED := 80
  const GEOMETRIC_CENTER := 60
  const APPROXIMATE := 50

  /** The resolver's options: the HTTP ones, Google's path, and the API key's default. */
  function OptionSchema(apiKey: string): Schema {
    HttpSchema(AnyValue, DEFAULT_PATH, [Rule(API_KEY, false, Some(Str(apiKey)), None, AnyValue)])
  }

  /** The free-text address: the address, then `" part,"` for each set part. */
  function AddressLine(options: Options): string
    requires BaseTyped(options)
  {
    options[ADDRESS].s + Segment(options, NEIGHBORHOOD, " ", ",")
      + Segment(options, CITY, " ", ",") + Segment(options, REGION, " ", ",")
  }

  /** The components filter, with trailing `|` trimmed. */
  function Components(options: Options): string
    requires BaseTyped(options)
  {
    RTrim(Segment(options, COUNTRY, "country:", "|") + Segment(options, POSTAL_CODE, "postal_code:", ""), {'|'})
  }

  /**
   * What the components filter is in each case. The trim also eats any
   * `|` a country or postal code itself ends with.
   */
  lemma ComponentsCases(options: Options)
    requires BaseTyped(options)
    ensures !IsSet(options, COUNTRY) && !IsSet(options, POSTAL_CODE) ==> Components(options) == ""
    ensures IsSet(options, COUNTRY) && !IsSet(options, POSTAL_CODE) ==>
              Components(options) == RTrim("country:" + Text(options[COUNTRY]), {'|'})
    ensures IsSet(options, POSTAL_CODE) ==>
              Components(options) == Segment(options, COUNTRY, "country:", "|") + "postal_code:"
                                     + RTrim(Text(options[POSTAL_CODE]), {'|'})
    ensures IsSet(options, COUNTRY) && IsSet(options, POSTAL_CODE) ==>
              Components(options) == "country:" + Text(options[COUNTRY]) + "|postal_code:"
                                     + RTrim(Text(options[POSTAL_CODE]), {'|'})
    ensures Components(options) == [] || Components(options)[|Components(options)| - 1] != '|'
  {
    if IsSet(options, POSTAL_CODE) {
      ComponentsWithPostal(options);
    } else {
      ComponentsWithoutPostal(options);
    }
  }

  lemma ComponentsWithoutPostal(options: Options)
    requires BaseTyped(options) && !IsSet(options, POSTAL_CODE)
    ensures Components(options) == if IsSet(options, COUNTRY) then RTrim("country:" + Text(options[COUNTRY]), {'|'}) else ""
  {
    var country := Segment(options, COUNTRY, "country:", "|");
    assert Components(options) == RTrim(country + "", {'|'});
    assert country + "" == country;
    if IsSet(options, COUNTRY) {
      TrimCountryOnly(Text(options[COUNTRY]));
    }
  }

  lemma ComponentsWithPostal(options: Options)
    requires BaseTyped(options) && IsSet(options, POSTAL_CODE)
    ensures Components(options) == Segment(options, COUNTRY, "country:", "|") + "postal_code:"
                                   + RTrim(Text(options[POSTAL_CODE]), {'|'})
    ensures Components(options)[|Components(options)| - 1] != '|'
  {
    var country := Segment(options, COUNTRY, "country:", "|");
    var p := Text(options[POSTAL_CODE]);
    TrimPostal(country, p);
    var tail := "postal_code:" + RTrim(p, {'|'});
    assert Components(options) == country + tail;
    assert tail[|tail| - 1] != '|';
  }

  lemma TrimCountryOnly(c: string)
    ensures RTrim("country:" + c + "|" + "", {'|'}) == RTrim("country:" + c, {'|'})
  {
    assert "country:" + c + "|" + "" == ("country:" + c) + ['|'];
    RTrimAbsorbs("country:" + c, '|', {'|'});
  }

  lemma TrimPostal(country: string, p: string)
    ensures RTrim(country + ("postal_code:" + p + ""), {'|'}) == country + "postal_code:" + RTrim(p, {'|'})
  {
    var bars := {'|'};
    var postal := "postal_code:" + p;
    assert postal + "" == postal;
    RTrimConcat("postal_code:", p, bars);
    assert RTrim("postal_code:", bars) == "postal_code:";
    assert RTrim(postal, bars) == "postal_code:" + RTrim(p, bars);
    RTrimConcat(country, postal, bars);
  }

  /**
   * The query string parameters: the free-text address, the components
   * filter and the API key option, each left out when empty.
   */
  function Query(options: Options): (q: Query)
    requires BaseTyped(options)
    ensures Carries(q, ADDRESS, Str(AddressLine(options)))
    ensures Carries(q, "components", Str(Components(options)))
    ensures Carries(q, "key", OptionAt(options, API_KEY))
    ensures DistinctKeys(q) && forall i :: 0 <= i < |q| ==> q[i].0 in [ADDRESS, "components", "key"]
  {
    var lit := [(ADDRESS, Str(AddressLine(options))),
                ("components", Str(Components(options))),
                ("key", OptionAt(options, API_KEY))];
    ArrayFilterCarries(lit);
    var q := ArrayFilter(lit);
    assert Carries(q, lit[0].0, lit[0].1) && Carries(q, lit[1].0, lit[1].1) && Carries(q, lit[2].0, lit[2].1);
    ArrayFilterNames(lit, [ADDRESS, "components", "key"]);
    q
  }

  /** `query`: the address and the components built up with `.=`, then filtered. */
  method BuildQuery(options: Options) returns (q: Query)
    requires BaseTyped(options)
    ensures q == Query(options)
  {
    var address := options[ADDRESS].s;
    address := address + (if IsSet(options, NEIGHBORHOOD) then " " + Text(options[NEIGHBORHOOD]) + "," else "");
    address := address + (if IsSet(options, CITY) then " " + Text(options[CITY]) + "," else "");
    address := address + (if IsSet(options, REGION) then " " + Text(options[REGION]) + "," else "");
    var components := "";
    components := components + (if IsSet(options, COUNTRY) then "country:" + Text(options[COUNTRY]) + "|" else "");
    assert components == Segment(options, COUNTRY, "country:", "|");
    components := components + (if IsSet(options, POSTAL_CODE) then "postal_code:" + Text(options[POSTAL_CODE]) else "");
    if IsSet(options, POSTAL_CODE) {
      var p := "postal_code:" + Text(options[POSTAL_CODE]);
      assert p + "" == p;
    }
    assert components == Segment(options, COUNTRY, "country:", "|") + Segment(options, POSTAL_CODE, "postal_code:", "");
    components := RTrim(components, {'|'});
    assert address == AddressLine(options);
    assert components == Components(options);
    q := ArrayFilter([(ADDRESS, Str(address)), ("components", Str(components)), ("key", OptionAt(options, API_KEY))]);
  }

  /** The constants of the class, its own and inherited, by name. */
  const CONSTANTS: map<string, Value> := map[
    "ROOFTOP" := Int(ROOFTOP), "RANGE_INTERPOLATED" := Int(RANGE_INTERPOLATED),
    "GEOMETRIC_CENTER" := Int(GEOMETRIC_CENTER), "APPROXIMATE" := Int(APPROXIMATE),
    "BASE_URI" := Str(BASE_URI), "PATH" := Str(PATH), "HEADERS" := Str(HEADERS),
    "AUTH" := Str(AUTH), "QUERY" := Str(QUERY), "ADDRESS" := Str(ADDRESS),
    "NEIGHBORHOOD" := Str(NEIGHBORHOOD), "CITY" := Str(CITY), "REGION" := Str(REGION),
    "POSTAL_CODE" := Str(POSTAL_CODE), "COUNTRY" := Str(COUNTRY), "FACTORY" := Str(FACTORY),
    "SCORE" := Str(SCORE), "LOCATION" := Str(LOCATION) ]

  /**
   * `constant(GoogleGeocoder::class . "::$name")`: the class's own and
   * inherited constants; any other name is an `Error`.
   */
  function Constant(name: string): Option<Value> {
    if name in CONSTANTS then Some(CONSTANTS[name]) else None
  }

  /** The location types Google documents, with their scores in order of precision. */
  lemma ScoreTable()
    ensures Constant("ROOFTOP") == Some(Int(100))
    ensures Constant("RANGE_INTERPOLATED") == Some(Int(80))
    ensures Constant("GEOMETRIC_CENTER") == Some(Int(60))
    ensures Constant("APPROXIMATE") == Some(Int(50))
    ensures Constant("") == None && Constant("rooftop") == None
  {
  }

  /** One result as a row; an error when its location type names no constant. */
  function MapRow(c: Value): (r: Result<Row>)
    ensures r.Fail? ==> r.error == TypeFault
  {
    var geometry := Field(c, "geometry");
    match StringOf(Field(geometry, "location_type"))
    case None => Fail(TypeFault)
    case Some(name) =>
      match Constant(name)
      case None => Fail(TypeFault)
      case Some(score) =>
        Ok(Row(Field(c, "formatted_address"), Lit(score),
               Pair(AsFloat(Field(Field(geometry, "location"), "lng")),
                    AsFloat(Field(Field(geometry, "location"), "lat")))))
  }

  /** The rows of the results in order, or the first result's error. */
  function MapRows(items: seq<(Key, Value)>): (r: Result<seq<Row>>)
    ensures r.Ok? ==> (|r.value| == |items| &&
                       forall i :: 0 <= i < |items| ==> MapRow(items[i].1) == Ok(r.value[i]))
    ensures r.Fail? ==> r.error == TypeFault && exists i :: 0 <= i < |items| && MapRow(items[i].1).Fail?
    ensures (forall i :: 0 <= i < |items| ==> MapRow(items[i].1).Ok?) ==> r.Ok?
  {
    MapEach(MapRow, items)
  }

  /** Once a prefix fails, the whole does, with the same error. */
  lemma MapRowsFailed(items: seq<(Key, Value)>, k: nat)
    requires k <= |items| && MapRows(items[..k]).Fail?
    ensures MapRows(items) == MapRows(items[..k])
  {
    MapEachFailed(MapRow, items, k);
  }

  /**
   * `mapResponse`: zero results and any status other than `OK` are
   * errors, raised inside the `try` and so wrapped; so is every client
   * exception. Only an unknown location type, a PHP `Error`, escapes
   * unwrapped.
   */
  function Candidates(response: Response): (r: Result<Rows>)
    ensures ToArray(response).Fail? ==> r == Fail(Wrapped(ToArray(response).error))
    ensures r == Fail(Wrapped(NoCandidatesFound)) <==>
              ToArray(response).Ok? && LooselyEqualsText("ZERO_RESULTS", Field(ToArray(response).value, "status"))
    ensures r.Fail? ==> r.error.GeocoderError? || r.error == TypeFault
    ensures ToArray(response).Ok? && !LooselyEqualsText("ZERO_RESULTS", Field(ToArray(response).value, "status")) &&
            Field(ToArray(response).value, "status") != Str("OK") ==>
              r == Fail(Wrapped(GeocoderError(None)))
    ensures r == Fail(TypeFault) ==> ToArray(response).Ok? && Field(ToArray(response).value, "status") == Str("OK")
    ensures ToArray(response).Ok? && Field(ToArray(response).value, "status") == Str("OK") ==>
              var items := Items(Field(ToArray(response).value, "results"));
              (r.Fail? ==> r.error == TypeFault) &&
              (r.Ok? <==> forall i :: 0 <= i < |items| ==> MapRow(items[i].1).Ok?) &&
              (r.Ok? ==> (|r.value| == |items| &&
                          forall i :: 0 <= i < |items| ==>
                            r.value[i].0 == IKey(i) && MapRow(items[i].1) == Ok(r.value[i].1)))
    ensures r.Ok? ==> ToArray(response).Ok? && Field(ToArray(response).value, "status") == Str("OK")
  {
    match ToArray(response)
    case Fail(e) => Fail(Wrapped(e))
    case Ok(data) =>
      var status := Field(data, "status");
      if LooselyEqualsText("ZERO_RESULTS", status) then Fail(Wrapped(NoCandidatesFound))
      else if status != Str("OK") then Fail(Wrapped(GeocoderError(None)))
      else match MapRows(Items(Field(data, "results")))
        case Fail(e) => Fail(e)
        case Ok(rows) => Ok(Numbered(rows))
  }

  /** The `foreach` appending one row per result, stopping at the first that fails. */
  method CollectRows(items: seq<(Key, Value)>) returns (r: Result<seq<Row>>)
    ensures r == MapRows(items)
  {
    var rows: seq<Row> := [];
    var i := 0;
    while i < |items|
      invariant 0 <= i <= |items|
      invariant MapRows(items[..i]) == Ok(rows)
    {
      var row := MapRow(items[i].1);
      assert items[..i + 1][..i] == items[..i] && items[..i + 1][i] == items[i];
      if row.Fail? {
        assert MapRows(items[..i + 1]) == Fail(row.error);
        MapRowsFailed(items, i + 1);
        return Fail(row.error);
      }
      assert MapRows(items[..i + 1]) == Ok(rows + [row.value]);
      rows := rows + [row.value];
      i := i + 1;
    }
    assert items[..i] == items;
    return Ok(rows);
  }

  /** `mapResponse` as written: the status checks, then the `foreach` over the results. */
  method MapResponse(response: Response) returns (r: Result<Rows>)
    ensures r == Candidates(response)
  {
    var decoded := ToArray(response);
    if decoded.Fail? {
      return Fail(Wrapped(decoded.error));
    }
    var data := decoded.value;
    var status := Field(data, "status");
    if LooselyEqualsText("ZERO_RESULTS", status) {
      return Fail(Wrapped(NoCandidatesFound));
    }
    if status != Str("OK") {
      return Fail(Wrapped(GeocoderError(None)));
    }
    var rows := CollectRows(Items(Field(data, "results")));
    if rows.Fail? {
      return Fail(rows.error);
    }
    return Ok(Numbered(rows.value));
  }

  /** `findCandidates`: the mapped response to the request for the resolved options. */
  function FindCandidates(request: Transport, options: Options): Result<Rows> {
    if Ready(options) then Candidates(Send(request, options, Query(options)))
    else Fail(TypeFault)
  }

  /**
   * Geocoding with Google: resolution errors come back before any request;
   * otherwise the mapped results, each placed by the caller's factory.
   */
  method Geocode(apiKey: string, request: Transport, options: Options, filter: Option<Row -> bool>)
    returns (r: Result<Rows>)
    ensures Resolve(OptionSchema(apiKey), options).Fail? ==> r == Fail(Resolve(OptionSchema(apiKey), options).error)
    ensures Resolve(OptionSchema(apiKey), options).Ok? ==>
              var found := FindCandidates(request, Resolve(OptionSchema(apiKey), options).value);
              FACTORY in options && options[FACTORY].Factory? &&
              (found.Fail? ==> r == Fail(found.error)) &&
              (found.Ok? ==> r == Ok(Selected(Located(found.value, options[FACTORY].srid), filter)))
  {
    if Resolve(OptionSchema(apiKey), options).Ok? {
      ResolvedReady(AnyValue, DEFAULT_PATH, [Rule(API_KEY, false, Some(Str(apiKey)), None, AnyValue)], options);
    }
    r := AbstractGeocoder.Geocode(o => Resolve(OptionSchema(apiKey), o), o => FindCandidates(request, o), options, filter);
  }
}
