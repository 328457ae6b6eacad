/**
 * HERE's geocoding and search API. The address goes into the free-text
 * `q` parameter and the city, neighborhood (as `district`), region (as
 * `state`) and country into the qualified `qq` parameter; the postal code
 * is never sent. Only the geometry factory for SRID 4326 is accepted, and
 * only a client (4xx) failure is wrapped in a geocoder exception.
 */
module HereGeocoder {
  import opened Php
  import opened Geocoder
  import opened AbstractGeocoder
  import opened HttpGetGeocoder

  const BASE_URI := "https://geocode.search.hereapi.com"
  const DEFAULT_PATH := "v1/geocode"
  const SRID := 4326

  /** The resolver's options: HERE's path, the API key's default and a WGS 84 factory. */
  function OptionSchema(apiKey: string): Schema {
    HttpSchema(SridIs(SRID), DEFAULT_PATH, [Rule(API_KEY, false, Some(Str(apiKey)), None, AnyValue)])
  }

  /** `"{before}{$options[$key]}"` as a one-element list when the option is set. */
  function Part(options: Options, key: string, before: string): seq<string>
    requires BaseTyped(options)
    requires key in {NEIGHBORHOOD, CITY, REGION, POSTAL_CODE, COUNTRY}
  {
    if IsSet(options, key) then [before + Text(options[key])] else []
  }

  /** The qualifiers that are set, in the order `qq` lists them. */
  function Qualifiers(options: Options): seq<string>
    requires BaseTyped(options)
  {
    Part(options, CITY, "city=") + Part(options, NEIGHBORHOOD, "district=")
      + Part(options, REGION, "state=") + Part(options, COUNTRY, "country=")
  }

  /** The `qq` parameter: each set qualifier followed by `;`, trailing `;` trimmed. */
  function Qq(options: Options): string
    requires BaseTyped(options)
  {
    RTrim(Segment(options, CITY, "city=", ";") + Segment(options, NEIGHBORHOOD, "district=", ";")
            + Segment(options, REGION, "state=", ";") + Segment(options, COUNTRY, "country=", ";"), {';'})
  }

  lemma SegmentIsPart(options: Options, key: string, before: string)
    requires BaseTyped(options)
    requires key in {NEIGHBORHOOD, CITY, REGION, POSTAL_CODE, COUNTRY}
    ensures Segment(options, key, before, ";") == Terminated(";", Part(options, key, before))
  {
    if IsSet(options, key) {
      var p := before + Text(options[key]);
      assert Terminated(";", [p]) == p + ";" + "";
      assert p + ";" + "" == p + ";";
    }
  }

  /**
   * `qq` is the set qualifiers joined by `;` (none: the empty string), as
   * long as the last of them does not itself end with `;`, which the trim
   * would also remove. It never ends with `;`.
   */
  lemma {:induction false} QqIsJoin(options: Options)
    requires BaseTyped(options)
    requires var qs := Qualifiers(options); qs == [] || qs[|qs| - 1][|qs[|qs| - 1]| - 1] != ';'
    ensures Qq(options) == Join(";", Qualifiers(options))
    ensures Qq(options) == [] || Qq(options)[|Qq(options)| - 1] != ';'
  {
    var qs := Qualifiers(options);
    QqBuilt(options);
    if qs != [] {
      var l := qs[|qs| - 1];
      assert l != [] by {
        assert l in Part(options, CITY, "city=") + Part(options, NEIGHBORHOOD, "district=")
                    + Part(options, REGION, "state=") + Part(options, COUNTRY, "country=");
      }
    }
    TrimTerminated(';', qs);
  }

  /** Before the trim, `qq` is every set qualifier followed by `;`. */
  lemma QqBuilt(options: Options)
    requires BaseTyped(options)
    ensures Segment(options, CITY, "city=", ";") + Segment(options, NEIGHBORHOOD, "district=", ";")
              + Segment(options, REGION, "state=", ";") + Segment(options, COUNTRY, "country=", ";")
            == Terminated(";", Qualifiers(options))
  {
    var c := Part(options, CITY, "city=");
    var d := Part(options, NEIGHBORHOOD, "district=");
    var s := Part(options, REGION, "state=");
    var n := Part(options, COUNTRY, "country=");
    SegmentIsPart(options, CITY, "city=");
    SegmentIsPart(options, NEIGHBORHOOD, "district=");
    SegmentIsPart(options, REGION, "state=");
    SegmentIsPart(options, COUNTRY, "country=");
    TerminatedAppend(";", c, d);
    TerminatedAppend(";", c + d, s);
    TerminatedAppend(";", c + d + s, n);
  }

  /** `query`: `qq` built up with `.=` and trimmed, then the three parameters filtered. */
  method BuildQuery(options: Options) returns (q: Query)
    requires BaseTyped(options)
    ensures q == Query(options)
  {
    var qq := "";
    qq := qq + (if IsSet(options, CITY) then "city=" + Text(options[CITY]) + ";" else "");
    assert qq == Segment(options, CITY, "city=", ";");
    qq := qq + (if IsSet(options, NEIGHBORHOOD) then "district=" + Text(options[NEIGHBORHOOD]) + ";" else "");
    qq := qq + (if IsSet(options, REGION) then "state=" + Text(options[REGION]) + ";" else "");
    qq := qq + (if IsSet(options, COUNTRY) then "country=" + Text(options[COUNTRY]) + ";" else "");
    qq := RTrim(qq, {';'});
    assert qq == Qq(options);
    q := ArrayFilter([("q", options[ADDRESS]), ("qq", Str(qq)), ("apikey", OptionAt(options, API_KEY))]);
  }

  /**
   * The query string parameters: the address, the qualifiers and the API
   * key option, each left out when empty. Nothing carries the postal code.
   */
  function Query(options: Options): (q: Query)
    requires BaseTyped(options)
    ensures Carries(q, "q", options[ADDRESS])
    ensures Carries(q, "qq", Str(Qq(options)))
    ensures Carries(q, "apikey", OptionAt(options, API_KEY))
    ensures DistinctKeys(q) && forall i :: 0 <= i < |q| ==> q[i].0 in ["q", "qq", "apikey"]
  {
    var lit := [("q", options[ADDRESS]), ("qq", Str(Qq(options))), ("apikey", OptionAt(options, API_KEY))];
    ArrayFilterCarries(lit);
    var q := ArrayFilter(lit);
    assert Carries(q, lit[0].0, lit[0].1) && Carries(q, lit[1].0, lit[1].1) && Carries(q, lit[2].0, lit[2].1);
    ArrayFilterNames(lit, ["q", "qq", "apikey"]);
    q
  }

  /** One item as a row: its title, its query score in percent, `[lng, lat]`. */
  function MapRow(c: Value): Row {
    Row(Field(c, "title"), Times100(AsFloat(Field(Field(c, "scoring"), "queryScore"))),
        Pair(AsFloat(Field(Field(c, "position"), "lng")), AsFloat(Field(Field(c, "position"), "lat"))))
  }

  /** `catch (ClientException $ex)`: only a 4xx failure is wrapped. */
  function Caught(e: Error): Error {
    if e == Transport(ClientFailure) then Wrapped(e) else e
  }

  /**
   * `mapResponse`: the items, renumbered from 0; none is an error, and
   * `count` of something other than an array a TypeError. Neither is a
   * client exception, so neither is wrapped.
   */
  function Candidates(response: Response): (r: Result<Rows>)
    ensures ToArray(response).Fail? ==> r == Fail(Caught(ToArray(response).error))
    ensures r.Fail? && r.error.GeocoderError? <==> response == Broken(ClientFailure)
    ensures r == Fail(NoCandidatesFound) <==>
              ToArray(response).Ok? && Field(ToArray(response).value, "items") == Arr([])
    ensures ToArray(response).Ok? && !Field(ToArray(response).value, "items").Arr? ==> r == Fail(TypeFault)
    ensures r.Ok? ==>
              ToArray(response).Ok? &&
              var es := Items(Field(ToArray(response).value, "items"));
              es != [] && |r.value| == |es| &&
              forall i :: 0 <= i < |es| ==> r.value[i] == (IKey(i), MapRow(es[i].1))
  {
    match ToArray(response)
    case Fail(e) => Fail(Caught(e))
    case Ok(data) =>
      var items := Field(data, "items");
      if !items.Arr? then Fail(TypeFault)
      else if items.entries == [] then Fail(NoCandidatesFound)
      else Ok(Numbered(seq(|items.entries|, i requires 0 <= i < |items.entries| => MapRow(items.entries[i].1))))
  }

  /** `mapResponse` as written: the `foreach` appending one row per item. */
  method MapResponse(response: Response) returns (r: Result<Rows>)
    ensures r == Candidates(response)
  {
    var decoded := ToArray(response);
    if decoded.Fail? {
      return Fail(Caught(decoded.error));
    }
    var items := Field(decoded.value, "items");
    if !items.Arr? {
      return Fail(TypeFault);
    }
    if |items.entries| == 0 {
      return Fail(NoCandidatesFound);
    }
    var es := items.entries;
    var rows: seq<Row> := [];
    var i := 0;
    while i < |es|
      invariant 0 <= i <= |es|
      invariant |rows| == i && forall k :: 0 <= k < i ==> rows[k] == MapRow(es[k].1)
    {
      rows := rows + [MapRow(es[i].1)];
      i := i + 1;
    }
    assert rows == seq(|es|, k requires 0 <= k < |es| => MapRow(es[k].1));
    return Ok(Numbered(rows));
  }

  /** `findCandidates`: the mapped response to the request for the resolved options. */
  function FindCandidates(request: Transport, options: Options): Result<Rows> {
    if Ready(options) then Candidates(Send(request, options, Query(options)))
    else Fail(TypeFault)
  }

  /**
   * Geocoding with HERE: resolution errors come back before any request,
   * among them a factory for another SRID; otherwise the mapped items, each
   * placed by the caller's WGS 84 factory.
   */
  method Geocode(apiKey: string, request: Transport, options: Options, filter: Option<Row -> bool>)
    returns (r: Result<Rows>)
    ensures Resolve(OptionSchema(apiKey), options).Fail? ==> r == Fail(Resolve(OptionSchema(apiKey), options).error)
    ensures Resolve(OptionSchema(apiKey), options).Ok? ==>
              var found := FindCandidates(request, Resolve(OptionSchema(apiKey), options).value);
              FACTORY in options && options[FACTORY] == Factory(SRID) &&
              (found.Fail? ==> r == Fail(found.error)) &&
              (found.Ok? ==> r == Ok(Selected(Located(found.value, SRID), filter)))
  {
    if Resolve(OptionSchema(apiKey), options).Ok? {
      ResolvedReady(SridIs(SRID), DEFAULT_PATH, [Rule(API_KEY, false, Some(Str(apiKey)), None, AnyValue)], options);
    }
    r := AbstractGeocoder.Geocode(o => Resolve(OptionSchema(apiKey), o), o => FindCandidates(request, o), options, filter);
  }
}
