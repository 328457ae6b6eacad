/**
 * The Texas A&M Geoservices geocoder (US addresses only). Besides the base
 * options it requires an API key, a census year, an API version and a
 * tie policy, all with defaults, and accepts a tie-breaking strategy out
 * of two. Only a body that is not JSON is wrapped in a geocoder exception.
 */
module TAMUGeocoder {
  import opened Php
  import opened Geocoder
  import opened AbstractGeocoder
  import opened HttpGetGeocoder

  const BASE_URI := "https://geoservices.tamu.edu"
  const DEFAULT_PATH := "Services/Geocode/WebService/GeocoderWebServiceHttpNonParsed_V04_01.aspx"
  const SRID := 4326

  // Option keys of this geocoder.
  const CENSUS_YEAR := "census_year"
  const VERSION := "version"
  const ALLOW_TIES := "allow_ties"
  const TIE_BREAKING_STRATEGY := "tie_breaking_strategy"

  // Option values.
  const FLIP_A_COIN := "flipACoin"
  const REVERT_TO_HIERARCHY := "revertToHierarchy"
  const CENSUS_YEARS: seq<string> := ["1990", "2000", "2010"]
  const API_VERSION := "4.01"

  /** The rules TAMU adds, in the order `configureOptions` adds them. */
  function TamuRules(apiKey: string): Schema {
    [ Rule(API_KEY, true, Some(Str(apiKey)), Some({TString}), AnyValue),
      Rule(CENSUS_YEAR, true, Some(Str(Join("|", CENSUS_YEARS))), Some({TString, TInt}), AnyValue),
      Rule(VERSION, true, Some(Str(API_VERSION)), None, AnyValue),
      Rule(ALLOW_TIES, true, Some(Bool(true)), Some({TBool}), AnyValue),
      Rule(TIE_BREAKING_STRATEGY, false, Some(Str(REVERT_TO_HIERARCHY)), Some({TString}),
           OneOf([Str(FLIP_A_COIN), Str(REVERT_TO_HIERARCHY)])) ]
  }

  /** The resolver's options: TAMU's path, its own rules and a WGS 84 factory. */
  function OptionSchema(apiKey: string): Schema {
    HttpSchema(SridIs(SRID), DEFAULT_PATH, TamuRules(apiKey))
  }

  /** By default every census year is asked for. */
  lemma DefaultCensusYears()
    ensures Join("|", CENSUS_YEARS) == "1990|2000|2010"
  {
    assert CENSUS_YEARS[1..] == ["2000", "2010"] && CENSUS_YEARS[1..][1..] == ["2010"];
  }

  /** The filtered part of the query, before the unfiltered address, key and format. */
  function Filtered(options: Options): seq<(string, Value)> {
    var ties := Truthy(OptionAt(options, ALLOW_TIES));
    [ ("version", Str(API_VERSION)),
      ("city", OptionAt(options, CITY)),
      ("state", OptionAt(options, REGION)),
      ("zip", OptionAt(options, POSTAL_CODE)),
      ("allowTies", Str(if ties then "true" else "false")),
      ("tieBreakingStrategy", if ties then Null else OptionAt(options, TIE_BREAKING_STRATEGY)),
      ("censusYear", OptionAt(options, CENSUS_YEAR)) ]
  }

  /**
   * The query string parameters: the version constant (not the option),
   * the city, the region as `state`, the postal code as `zip`, the tie
   * policy and the census year, each left out when empty; then, always,
   * the address, the API key option and the JSON format. The strategy is
   * sent only when ties are not allowed.
   */
  function Query(options: Options): (q: Query)
    ensures var ties := Truthy(OptionAt(options, ALLOW_TIES));
            Carries(q, "version", Str(API_VERSION)) &&
            Carries(q, "city", OptionAt(options, CITY)) &&
            Carries(q, "state", OptionAt(options, REGION)) &&
            Carries(q, "zip", OptionAt(options, POSTAL_CODE)) &&
            Carries(q, "allowTies", Str(if ties then "true" else "false")) &&
            Carries(q, "tieBreakingStrategy", if ties then Null else OptionAt(options, TIE_BREAKING_STRATEGY)) &&
            Carries(q, "censusYear", OptionAt(options, CENSUS_YEAR))
    ensures |q| >= 3 && q[|q| - 3..] == [("streetAddress", OptionAt(options, ADDRESS)),
                                          ("apiKey", OptionAt(options, API_KEY)), ("format", Str("json"))]
    ensures DistinctKeys(q)
    ensures forall i :: 0 <= i < |q| ==> q[i].0 in PARAMS
  {
    var lit := Filtered(options);
    var q := ArrayFilter(lit) + Unfiltered(options);
    QueryCarries(options);
    QueryNames(options);
    assert Carries(q, lit[0].0, lit[0].1) && Carries(q, lit[1].0, lit[1].1);
    assert Carries(q, lit[2].0, lit[2].1) && Carries(q, lit[3].0, lit[3].1);
    assert Carries(q, lit[4].0, lit[4].1) && Carries(q, lit[5].0, lit[5].1);
    assert Carries(q, lit[6].0, lit[6].1);
    q
  }

  /** The only names the query sends. */
  const PARAMS := FILTERED_NAMES + {"streetAddress", "apiKey", "format"}

  lemma QueryNames(options: Options)
    ensures var q := ArrayFilter(Filtered(options)) + Unfiltered(options);
            forall i :: 0 <= i < |q| ==> q[i].0 in PARAMS
  {
    FilteredCarries(options);
    var f := ArrayFilter(Filtered(options));
    var u := Unfiltered(options);
    var q := f + u;
    forall i | 0 <= i < |q|
      ensures q[i].0 in PARAMS
    {
      if i < |f| {
        assert q[i] == f[i];
      } else {
        assert q[i] == u[i - |f|];
      }
    }
  }

  /** The parameters sent whatever their value. */
  function Unfiltered(options: Options): seq<(string, Value)> {
    [("streetAddress", OptionAt(options, ADDRESS)), ("apiKey", OptionAt(options, API_KEY)), ("format", Str("json"))]
  }

  lemma QueryCarries(options: Options)
    ensures var lit := Filtered(options);
            var q := ArrayFilter(lit) + Unfiltered(options);
            (forall k :: 0 <= k < |lit| ==> Carries(q, lit[k].0, lit[k].1)) &&
            DistinctKeys(q) && |q| >= 3 && q[|q| - 3..] == Unfiltered(options)
  {
    var lit := Filtered(options);
    var f := ArrayFilter(lit);
    FilteredCarries(options);
    UnfilteredNames(options);
    AppendCarriesAll(f, Unfiltered(options), lit, FILTERED_NAMES);
    assert (f + Unfiltered(options))[|f + Unfiltered(options)| - 3..] == Unfiltered(options);
  }

  lemma UnfilteredNames(options: Options)
    ensures |Unfiltered(options)| == 3 && DistinctKeys(Unfiltered(options))
    ensures forall j :: 0 <= j < |Unfiltered(options)| ==> Unfiltered(options)[j].0 !in FILTERED_NAMES
  {
  }

  const FILTERED_NAMES := {"version", "city", "state", "zip", "allowTies", "tieBreakingStrategy", "censusYear"}

  lemma FilteredCarries(options: Options)
    ensures var lit := Filtered(options);
            var f := ArrayFilter(lit);
            (forall k :: 0 <= k < |lit| ==> Carries(f, lit[k].0, lit[k].1) && lit[k].0 in FILTERED_NAMES) &&
            DistinctKeys(f) && forall i :: 0 <= i < |f| ==> f[i].0 in FILTERED_NAMES
  {
    var lit := Filtered(options);
    assert lit[0].0 == "version" && lit[1].0 == "city" && lit[2].0 == "state" && lit[3].0 == "zip";
    assert lit[4].0 == "allowTies" && lit[5].0 == "tieBreakingStrategy" && lit[6].0 == "censusYear";
    assert DistinctKeys(lit);
    assert forall k :: 0 <= k < |lit| ==> lit[k].0 in FILTERED_NAMES;
    ArrayFilterCarries(lit);
    var f := ArrayFilter(lit);
    forall i | 0 <= i < |f|
      ensures f[i].0 in FILTERED_NAMES
    {
      assert f[i] in lit;
    }
  }

  /**
   * After resolution the tie policy is a boolean; the strategy is sent
   * exactly when ties are not allowed, and is then one of the two the
   * service knows.
   */
  lemma ResolvedTies(apiKey: string, options: Options)
    requires Resolve(OptionSchema(apiKey), options).Ok?
    ensures var m := Resolve(OptionSchema(apiKey), options).value;
            ALLOW_TIES in m && TIE_BREAKING_STRATEGY in m && TiesSent(m)
  {
    var schema := OptionSchema(apiKey);
    var m := Resolve(schema, options).value;
    assert Satisfies(schema, m);
    TamuDefaults(apiKey, options);
    TiesAccepted(apiKey, m);
    TiesQuery(m);
  }

  /** How the query carries the tie policy of options that passed TAMU's rules. */
  predicate TiesSent(m: Options)
    requires ALLOW_TIES in m && TIE_BREAKING_STRATEGY in m
  {
    var q := Query(m);
    m[ALLOW_TIES].Bool? &&
    (m[ALLOW_TIES].b ==> ("allowTies", Str("true")) in q &&
                         forall i :: 0 <= i < |q| ==> q[i].0 != "tieBreakingStrategy") &&
    (!m[ALLOW_TIES].b ==> ("allowTies", Str("false")) in q &&
                          ("tieBreakingStrategy", m[TIE_BREAKING_STRATEGY]) in q &&
                          m[TIE_BREAKING_STRATEGY] in [Str(FLIP_A_COIN), Str(REVERT_TO_HIERARCHY)])
  }

  lemma TiesQuery(m: Options)
    requires ALLOW_TIES in m && TIE_BREAKING_STRATEGY in m && m[ALLOW_TIES].Bool?
    requires m[TIE_BREAKING_STRATEGY] in [Str(FLIP_A_COIN), Str(REVERT_TO_HIERARCHY)]
    ensures TiesSent(m)
  {
    var q := Query(m);
    assert Carries(q, "allowTies", Str(if m[ALLOW_TIES].b then "true" else "false"));
    if !m[ALLOW_TIES].b {
      assert Truthy(m[TIE_BREAKING_STRATEGY]);
    }
  }

  /** Every TAMU option has a value after resolution, its default if need be. */
  lemma TamuDefaults(apiKey: string, options: Options)
    requires Resolve(OptionSchema(apiKey), options).Ok?
    ensures var m := Resolve(OptionSchema(apiKey), options).value;
            ALLOW_TIES in m && TIE_BREAKING_STRATEGY in m && API_KEY in m && CENSUS_YEAR in m
  {
    var schema := OptionSchema(apiKey);
    assert Resolve(schema, options).value == Merged(schema, options);
    TamuDefaultKeys(apiKey);
  }

  /**
   * The defaults TAMU gives its options when the caller leaves them out:
   * the constructor's key, every census year, ties allowed, and a
   * hierarchical tie-break.
   */
  lemma TamuDefaultValues(apiKey: string, options: Options)
    requires Resolve(OptionSchema(apiKey), options).Ok?
    ensures var m := Resolve(OptionSchema(apiKey), options).value;
            (API_KEY !in options ==> API_KEY in m && m[API_KEY] == Str(apiKey)) &&
            (CENSUS_YEAR !in options ==> CENSUS_YEAR in m && m[CENSUS_YEAR] == Str("1990|2000|2010")) &&
            (ALLOW_TIES !in options ==> ALLOW_TIES in m && m[ALLOW_TIES] == Bool(true)) &&
            (TIE_BREAKING_STRATEGY !in options ==> TIE_BREAKING_STRATEGY in m && m[TIE_BREAKING_STRATEGY] == Str(REVERT_TO_HIERARCHY))
  {
    TamuDefaults(apiKey, options);
    TamuRuleDefaults(apiKey);
    if API_KEY !in options {
      MergedTamuDefault(apiKey, options, API_KEY);
    }
    if CENSUS_YEAR !in options {
      MergedTamuDefault(apiKey, options, CENSUS_YEAR);
      DefaultCensusYears();
    }
    if ALLOW_TIES !in options {
      MergedTamuDefault(apiKey, options, ALLOW_TIES);
    }
    if TIE_BREAKING_STRATEGY !in options {
      MergedTamuDefault(apiKey, options, TIE_BREAKING_STRATEGY);
    }
  }

  /** A TAMU option the caller leaves out resolves to the default of TAMU's rules. */
  lemma MergedTamuDefault(apiKey: string, options: Options, key: string)
    requires Resolve(OptionSchema(apiKey), options).Ok?
    requires key !in {PATH, HEADERS, AUTH} && key !in options
    requires key in Resolve(OptionSchema(apiKey), options).value
    ensures DefaultOf(TamuRules(apiKey), key) == Some(Resolve(OptionSchema(apiKey), options).value[key])
  {
    var schema := OptionSchema(apiKey);
    assert Resolve(schema, options).value == Merged(schema, options);
    TamuDefaultOf(apiKey, key);
  }

  /** TAMU's own options take their defaults from TAMU's rules. */
  lemma TamuDefaultOf(apiKey: string, key: string)
    requires key !in {PATH, HEADERS, AUTH}
    ensures DefaultOf(OptionSchema(apiKey), key) == DefaultOf(TamuRules(apiKey), key)
  {
    var http := HttpRules(DEFAULT_PATH);
    DefaultOfAppend(BaseSchema(SridIs(SRID)), http + TamuRules(apiKey), key);
    DefaultOfAppend(http, TamuRules(apiKey), key);
    BaseNoDefault(SridIs(SRID), key);
    assert DefaultOf(http, key).None? by {
      assert forall i :: 0 <= i < |http| ==> http[i].key != key;
    }
  }

  /** The defaults TAMU's rules give. */
  lemma TamuRuleDefaults(apiKey: string)
    ensures DefaultOf(TamuRules(apiKey), API_KEY) == Some(Str(apiKey))
    ensures DefaultOf(TamuRules(apiKey), CENSUS_YEAR) == Some(Str(Join("|", CENSUS_YEARS)))
    ensures DefaultOf(TamuRules(apiKey), ALLOW_TIES) == Some(Bool(true))
    ensures DefaultOf(TamuRules(apiKey), TIE_BREAKING_STRATEGY) == Some(Str(REVERT_TO_HIERARCHY))
  {
    var rules := TamuRules(apiKey);
    assert rules[0].key == API_KEY && rules[0].default == Some(Str(apiKey));
    assert rules[1..][0].key == CENSUS_YEAR;
    assert rules[1..][1..][1..][0].key == ALLOW_TIES;
    assert rules[1..][1..][1..][1..][0].key == TIE_BREAKING_STRATEGY;
  }

  lemma TamuDefaultKeys(apiKey: string)
    ensures {API_KEY, CENSUS_YEAR, ALLOW_TIES, TIE_BREAKING_STRATEGY} <= DefaultKeys(OptionSchema(apiKey))
  {
    var schema := OptionSchema(apiKey);
    var rules := TamuRules(apiKey);
    assert forall i :: 0 <= i < |rules| ==> schema[10 + i] == rules[i];
    assert rules[0].key == API_KEY && rules[0].default.Some?;
    assert rules[1].key == CENSUS_YEAR && rules[1].default.Some?;
    assert rules[3].key == ALLOW_TIES && rules[3].default.Some?;
    assert rules[4].key == TIE_BREAKING_STRATEGY && rules[4].default.Some?;
  }

  lemma TiesAccepted(apiKey: string, m: Options)
    requires Satisfies(OptionSchema(apiKey), m) && ALLOW_TIES in m && TIE_BREAKING_STRATEGY in m
    ensures m[ALLOW_TIES].Bool?
    ensures m[TIE_BREAKING_STRATEGY] in [Str(FLIP_A_COIN), Str(REVERT_TO_HIERARCHY)]
  {
    var schema := OptionSchema(apiKey);
    assert forall i :: 0 <= i < 5 ==> schema[10 + i] == TamuRules(apiKey)[i];
    assert schema[13] == Rule(ALLOW_TIES, true, Some(Bool(true)), Some({TBool}), AnyValue);
    RuleHolds(schema, m, 13);
    assert schema[14] == TamuRules(apiKey)[4];
    RuleHolds(schema, m, 14);
  }

  /** One output geocode as a row, under the address the service echoes back. */
  function MapRow(data: Value, c: Value): Row {
    var geocode := Field(c, "OutputGeocode");
    Row(Field(Field(data, "InputAddress"), "StreetAddress"), Lit(Field(geocode, "MatchScore")),
        Pair(AsFloat(Field(geocode, "Longitude")), AsFloat(Field(geocode, "Latitude"))))
  }

  /** `catch (JsonException $jex)`: only an undecodable body is wrapped. */
  function Caught(e: Error): Error {
    if e == Transport(DecodingFailure) then Wrapped(e) else e
  }

  /**
   * `mapResponse`: a match count loosely equal to zero is an error, raised
   * unwrapped; otherwise one row per output geocode, renumbered from 0
   * (possibly none), all under the echoed street address.
   */
  function Candidates(response: Response): (r: Result<Rows>)
    ensures ToArray(response).Fail? ==> r == Fail(Caught(ToArray(response).error))
    ensures r.Fail? && r.error.GeocoderError? <==> ToArray(response) == Fail(Transport(DecodingFailure))
    ensures r == Fail(NoCandidatesFound) <==>
              ToArray(response).Ok? && LooselyZero(Field(ToArray(response).value, "FeatureMatchingResultCount"))
    ensures r.Ok? ==>
              ToArray(response).Ok? &&
              var data := ToArray(response).value;
              var es := Items(Field(data, "OutputGeocodes"));
              |r.value| == |es| &&
              forall i :: 0 <= i < |es| ==>
                r.value[i] == (IKey(i), MapRow(data, es[i].1)) &&
                r.value[i].1.address == Field(Field(data, "InputAddress"), "StreetAddress")
  {
    match ToArray(response)
    case Fail(e) => Fail(Caught(e))
    case Ok(data) =>
      if LooselyZero(Field(data, "FeatureMatchingResultCount")) then Fail(NoCandidatesFound)
      else
        var es := Items(Field(data, "OutputGeocodes"));
        Ok(Numbered(seq(|es|, i requires 0 <= i < |es| => MapRow(data, es[i].1))))
  }

  /** The `foreach` appending one row per output geocode. */
  method CollectRows(data: Value, es: seq<(Key, Value)>) returns (rows: seq<Row>)
    ensures |rows| == |es| && forall k :: 0 <= k < |es| ==> rows[k] == MapRow(data, es[k].1)
  {
    rows := [];
    var i := 0;
    while i < |es|
      invariant 0 <= i <= |es|
      invariant |rows| == i && forall k :: 0 <= k < i ==> rows[k] == MapRow(data, es[k].1)
    {
      rows := rows + [MapRow(data, es[i].1)];
      i := i + 1;
    }
  }

  /** `mapResponse` as written: the decoding and count checks, then the `foreach`. */
  method MapResponse(response: Response) returns (r: Result<Rows>)
    ensures r == Candidates(response)
  {
    var decoded := ToArray(response);
    if decoded.Fail? {
      return Fail(Caught(decoded.error));
    }
    var data := decoded.value;
    if LooselyZero(Field(data, "FeatureMatchingResultCount")) {
      return Fail(NoCandidatesFound);
    }
    var es := Items(Field(data, "OutputGeocodes"));
    var rows := CollectRows(data, es);
    assert rows == seq(|es|, k requires 0 <= k < |es| => MapRow(data, es[k].1));
    return Ok(Numbered(rows));
  }

  /** `findCandidates`: the mapped response to the request for the resolved options. */
  function FindCandidates(request: Transport, options: Options): Result<Rows> {
    if Ready(options) then Candidates(Send(request, options, Query(options)))
    else Fail(TypeFault)
  }

  /**
   * Geocoding with TAMU: resolution errors come back before any request,
   * among them a factory for another SRID or an unknown strategy;
   * otherwise the mapped geocodes, each placed by the caller's WGS 84 factory.
   */
  method Geocode(apiKey: string, request: Transport, options: Options, filter: Option<Row -> bool>)
    returns (r: Result<Rows>)
    ensures Resolve(OptionSchema(apiKey), options).Fail? ==> r == Fail(Resolve(OptionSchema(apiKey), options).error)
    ensures Resolve(OptionSchema(apiKey), options).Ok? ==>
              var found := FindCandidates(request, Resolve(OptionSchema(apiKey), options).value);
              FACTORY in options && options[FACTORY] == Factory(SRID) &&
              (found.Fail? ==> r == Fail(found.error)) &&
              (found.Ok? ==> r == Ok(Selected(Located(found.value, SRID), filter)))
  {
    if Resolve(OptionSchema(apiKey), options).Ok? {
      NoTamuFactoryDefault(apiKey);
      ResolvedReady(SridIs(SRID), DEFAULT_PATH, TamuRules(apiKey), options);
    }
    r := AbstractGeocoder.Geocode(o => Resolve(OptionSchema(apiKey), o), o => FindCandidates(request, o), options, filter);
  }

  lemma NoTamuFactoryDefault(apiKey: string)
    ensures DefaultOf(TamuRules(apiKey), FACTORY).None?
  {
  }
}
