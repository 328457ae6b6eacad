/**
 * TomTom's Search API geocoding endpoint. The address and its set parts
 * are not query parameters but part of the path: a normaliser of the
 * `path` option substitutes the URL-encoded address for `{path}` in the
 * template. Only results of type `Point Address` become rows, the
 * constructor's API key is the only parameter sent, and every exception
 * raised while mapping is wrapped in a geocoder exception.
 */
module TomTomGeocoder {
  import opened Php
  import opened Geocoder
  import opened AbstractGeocoder
  import opened HttpGetGeocoder

  const BASE_URI := "https://api.tomtom.com"
  const PATH_TEMPLATE := "search/2/geocode/{path}.json"
  const PLACEHOLDER := "{path}"
  const SRID := 4326

  /** `urlencode`, which the model takes as given. */
  type Encoder = string -> string

  /** The resolver's options: the path template, the API key's default and a WGS 84 factory. */
  function OptionSchema(apiKey: string): Schema {
    HttpSchema(SridIs(SRID), PATH_TEMPLATE, [Rule(API_KEY, false, Some(Str(apiKey)), None, AnyValue)])
  }

  /**
   * The address followed by a space, then each set neighborhood, city,
   * region and country followed by a space. The postal code takes no part.
   */
  function Words(options: Options): string
    requires BaseTyped(options)
  {
    options[ADDRESS].s + " " + Segment(options, NEIGHBORHOOD, "", " ") + Segment(options, CITY, "", " ")
      + Segment(options, REGION, "", " ") + Segment(options, COUNTRY, "", " ")
  }

  /** The normalised path: the encoded, right-trimmed words in place of every `{path}`. */
  function PathFor(options: Options, template: string, encode: Encoder): string
    requires BaseTyped(options)
  {
    ReplaceAll(template, PLACEHOLDER, encode(RTrim(Words(options), RTrimDefault)))
  }

  /** The normaliser of the `path` option as written, with its `.=` steps. */
  method NormalisePath(options: Options, value: string, encode: Encoder) returns (p: string)
    requires BaseTyped(options)
    ensures p == PathFor(options, value, encode)
  {
    var path := options[ADDRESS].s + " ";
    path := path + (if IsSet(options, NEIGHBORHOOD) then Text(options[NEIGHBORHOOD]) + " " else "");
    assert path == options[ADDRESS].s + " " + Segment(options, NEIGHBORHOOD, "", " ") by {
      if IsSet(options, NEIGHBORHOOD) {
        assert "" + Text(options[NEIGHBORHOOD]) == Text(options[NEIGHBORHOOD]);
      }
    }
    path := path + (if IsSet(options, CITY) then Text(options[CITY]) + " " else "");
    assert path == options[ADDRESS].s + " " + Segment(options, NEIGHBORHOOD, "", " ")
                   + Segment(options, CITY, "", " ") by {
      if IsSet(options, CITY) {
        assert "" + Text(options[CITY]) == Text(options[CITY]);
      }
    }
    path := path + (if IsSet(options, REGION) then Text(options[REGION]) + " " else "");
    assert path == options[ADDRESS].s + " " + Segment(options, NEIGHBORHOOD, "", " ")
                   + Segment(options, CITY, "", " ") + Segment(options, REGION, "", " ") by {
      if IsSet(options, REGION) {
        assert "" + Text(options[REGION]) == Text(options[REGION]);
      }
    }
    path := path + (if IsSet(options, COUNTRY) then Text(options[COUNTRY]) + " " else "");
    assert path == Words(options) by {
      if IsSet(options, COUNTRY) {
        assert "" + Text(options[COUNTRY]) == Text(options[COUNTRY]);
      }
    }
    path := encode(RTrim(path, RTrimDefault));
    p := ReplaceAll(value, PLACEHOLDER, path);
  }

  /**
   * `resolve` of the configured resolver: the schema's resolution, then
   * the `path` option normalised.
   */
  function ResolveOptions(apiKey: string, encode: Encoder, options: Options): (r: Result<Options>)
    ensures r.Fail? <==> Resolve(OptionSchema(apiKey), options).Fail?
    ensures r.Fail? ==> r.error == Resolve(OptionSchema(apiKey), options).error
    ensures r.Ok? ==> Ready(r.value) && FACTORY in options && options[FACTORY] == Factory(SRID)
  {
    var resolved := Resolve(OptionSchema(apiKey), options);
    if resolved.Fail? then Fail(resolved.error)
    else
      ResolvedReady(SridIs(SRID), PATH_TEMPLATE, [Rule(API_KEY, false, Some(Str(apiKey)), None, AnyValue)], options);
      Normalised(resolved.value, encode)
  }

  /** The resolved options with the path normalised. */
  function Normalised(m: Options, encode: Encoder): (r: Result<Options>)
    requires Ready(m)
    ensures r.Ok? && Ready(r.value) && r.value.Keys == m.Keys
    ensures r.value[PATH] == Str(PathFor(m, m[PATH].s, encode))
    ensures forall k :: k in m && k != PATH ==> r.value[k] == m[k]
  {
    var path := PathFor(m, m[PATH].s, encode);
    ReadyWithPath(m, path);
    Ok(m[PATH := Str(path)])
  }

  /**
   * Without a path of the caller's, the request goes to
   * `search/2/geocode/<encoded address>.json`; every other option is the
   * resolved one.
   */
  lemma DefaultPath(apiKey: string, encode: Encoder, options: Options)
    requires PATH !in options && Resolve(OptionSchema(apiKey), options).Ok?
    ensures var m := Resolve(OptionSchema(apiKey), options).value;
            var r := ResolveOptions(apiKey, encode, options).value;
            r.Keys == m.Keys && (forall k :: k in m && k != PATH ==> r[k] == m[k]) &&
            r[PATH] == Str("search/2/geocode/" + encode(RTrim(Words(r), RTrimDefault)) + ".json")
  {
    var m := Resolve(OptionSchema(apiKey), options).value;
    PathDefault(SridIs(SRID), PATH_TEMPLATE, [Rule(API_KEY, false, Some(Str(apiKey)), None, AnyValue)], options);
    ResolvedReady(SridIs(SRID), PATH_TEMPLATE, [Rule(API_KEY, false, Some(Str(apiKey)), None, AnyValue)], options);
    assert ResolveOptions(apiKey, encode, options) == Normalised(m, encode);
    NormalisedTemplate(m, encode);
  }

  lemma NormalisedTemplate(m: Options, encode: Encoder)
    requires Ready(m) && m[PATH] == Str(PATH_TEMPLATE)
    ensures var r := Normalised(m, encode).value;
            r[PATH] == Str("search/2/geocode/" + encode(RTrim(Words(r), RTrimDefault)) + ".json")
  {
    var path := PathFor(m, PATH_TEMPLATE, encode);
    assert Normalised(m, encode).value == m[PATH := Str(path)];
    WordsIgnorePath(m, path);
    TemplatePath(m, encode);
  }

  /** The words do not depend on the path option. */
  lemma WordsIgnorePath(m: Options, path: string)
    requires BaseTyped(m)
    ensures BaseTyped(m[PATH := Str(path)]) && Words(m[PATH := Str(path)]) == Words(m)
  {
    var r := m[PATH := Str(path)];
    assert r[ADDRESS] == m[ADDRESS];
    assert forall k :: k in {NEIGHBORHOOD, CITY, REGION, COUNTRY} ==> (k in r <==> k in m) && (k in m ==> r[k] == m[k]);
  }

  /** The default template holds one placeholder, between the fixed prefix and suffix. */
  lemma TemplatePath(m: Options, encode: Encoder)
    requires BaseTyped(m)
    ensures PathFor(m, PATH_TEMPLATE, encode) ==
              "search/2/geocode/" + encode(RTrim(Words(m), RTrimDefault)) + ".json"
  {
    assert PATH_TEMPLATE == "search/2/geocode/" + PLACEHOLDER + ".json";
    ReplaceAllOnce("search/2/geocode/", PLACEHOLDER, ".json", encode(RTrim(Words(m), RTrimDefault)));
  }

  /** The query string parameters: the constructor's API key, when not empty. */
  function Query(apiKey: string): (q: Query)
    ensures Carries(q, "key", Str(apiKey)) && |q| <= 1
  {
    var lit := [("key", Str(apiKey))];
    ArrayFilterCarries(lit);
    var q := ArrayFilter(lit);
    assert Carries(q, lit[0].0, lit[0].1);
    assert Subsequence(q, lit);
    q
  }

  /** Whether a result is a point address, the only kind that becomes a row. */
  predicate IsPointAddress(c: Value) {
    Field(c, "type") == Str("Point Address")
  }

  /** One point address as a row: its free-form address, its score, `[lon, lat]`. */
  function MapRow(c: Value): Row {
    Row(Field(Field(c, ADDRESS), "freeformAddress"), Lit(Field(c, SCORE)),
        Pair(AsFloat(Field(Field(c, "position"), "lon")), AsFloat(Field(Field(c, "position"), "lat"))))
  }

  /** The rows of the point addresses among the results, in order. */
  function PointRows(results: seq<(Key, Value)>): seq<Row> {
    MapValues(MapRow, Filter(results, IsPointAddress))
  }

  /** The total the response's summary reports. */
  function TotalResults(data: Value): Value {
    Field(Field(data, "summary"), "totalResults")
  }

  /**
   * `mapResponse`: a reported total loosely equal to zero is an error;
   * otherwise the point addresses among the results, renumbered from 0
   * (possibly none). Every failure, the client's included, is wrapped.
   */
  function Candidates(response: Response): (r: Result<Rows>)
    ensures ToArray(response).Fail? ==> r == Fail(Wrapped(ToArray(response).error))
    ensures r == Fail(Wrapped(NoCandidatesFound)) <==>
              ToArray(response).Ok? && LooselyZero(TotalResults(ToArray(response).value))
    ensures r.Fail? ==> r.error.GeocoderError?
    ensures r.Ok? ==> r.value == Numbered(PointRows(Items(Field(ToArray(response).value, "results"))))
    ensures r.Ok? ==>
              ToArray(response).Ok? && !LooselyZero(TotalResults(ToArray(response).value)) &&
              var results := Items(Field(ToArray(response).value, "results"));
              (forall i :: 0 <= i < |r.value| ==>
                 r.value[i].0 == IKey(i) &&
                 exists j :: 0 <= j < |results| && IsPointAddress(results[j].1) && r.value[i].1 == MapRow(results[j].1)) &&
              (forall j :: 0 <= j < |results| && IsPointAddress(results[j].1) ==>
                 exists i :: 0 <= i < |r.value| && r.value[i].1 == MapRow(results[j].1))
  {
    match ToArray(response)
    case Fail(e) => Fail(Wrapped(e))
    case Ok(data) =>
      if LooselyZero(TotalResults(data)) then Fail(Wrapped(NoCandidatesFound))
      else
        var results := Items(Field(data, "results"));
        var rows := PointRows(results);
        PointRowsFrom(results);
        PointRowsComplete(results);
        Ok(Numbered(rows))
  }

  /** Every point row is the row of a point address among the results. */
  lemma PointRowsFrom(results: seq<(Key, Value)>)
    ensures forall i :: 0 <= i < |PointRows(results)| ==>
              exists j :: 0 <= j < |results| && IsPointAddress(results[j].1) && PointRows(results)[i] == MapRow(results[j].1)
  {
    KeptFrom(MapRow, IsPointAddress, results);
    var rows := PointRows(results);
    forall i | 0 <= i < |rows|
      ensures exists j :: 0 <= j < |results| && IsPointAddress(results[j].1) && rows[i] == MapRow(results[j].1)
    {
      var j :| 0 <= j < |results| && IsPointAddress(results[j].1) && rows[i] == MapRow(results[j].1);
    }
  }

  /** Every point address among the results has its row. */
  lemma PointRowsComplete(results: seq<(Key, Value)>)
    ensures forall j :: 0 <= j < |results| && IsPointAddress(results[j].1) ==> MapRow(results[j].1) in PointRows(results)
  {
    KeptComplete(MapRow, IsPointAddress, results);
  }

  /** One more result adds its row exactly when it is a point address. */
  lemma PointRowsSnoc(results: seq<(Key, Value)>, e: (Key, Value))
    ensures PointRows(results + [e]) == PointRows(results) + (if IsPointAddress(e.1) then [MapRow(e.1)] else [])
  {
    FilterSnoc(results, e, IsPointAddress);
    var before := Filter(results, IsPointAddress);
    if IsPointAddress(e.1) {
      MapValuesSnoc(MapRow, before, e);
    } else {
      assert Filter(results + [e], IsPointAddress) == before;
    }
  }

  /** `mapResponse` as written: the total check, then the `foreach` with `continue`. */
  method MapResponse(response: Response) returns (r: Result<Rows>)
    ensures r == Candidates(response)
  {
    var decoded := ToArray(response);
    if decoded.Fail? {
      return Fail(Wrapped(decoded.error));
    }
    var data := decoded.value;
    if LooselyZero(TotalResults(data)) {
      return Fail(Wrapped(NoCandidatesFound));
    }
    var rows := CollectKept(MapRow, IsPointAddress, Items(Field(data, "results")));
    return Ok(Numbered(rows));
  }

  /** `findCandidates`: the mapped response to the request for the normalised path. */
  function FindCandidates(apiKey: string, request: Transport, options: Options): Result<Rows> {
    if Ready(options) then Candidates(Send(request, options, Query(apiKey)))
    else Fail(TypeFault)
  }

  /**
   * Geocoding with TomTom: resolution errors come back before any request,
   * among them a factory for another SRID; otherwise the mapped point
   * addresses, each placed by the caller's WGS 84 factory.
   */
  method Geocode(apiKey: string, encode: Encoder, request: Transport, options: Options,
                 filter: Option<Row -> bool>) returns (r: Result<Rows>)
    ensures ResolveOptions(apiKey, encode, options).Fail? ==>
              r == Fail(ResolveOptions(apiKey, encode, options).error)
    ensures ResolveOptions(apiKey, encode, options).Ok? ==>
              var found := FindCandidates(apiKey, request, ResolveOptions(apiKey, encode, options).value);
              FACTORY in options && options[FACTORY] == Factory(SRID) &&
              (found.Fail? ==> r == Fail(found.error)) &&
              (found.Ok? ==> r == Ok(Selected(Located(found.value, SRID), filter)))
  {
    r := AbstractGeocoder.Geocode(o => ResolveOptions(apiKey, encode, o), o => FindCandidates(apiKey, request, o),
                                  options, filter);
  }
}
